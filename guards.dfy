/**
 * An ordered chain of guards, each with the rejection it produces. The route
 * handlers test their guards one after another and return at the first that
 * fails; `FirstFailure` is that rule stated once, as a reference the handlers'
 * own nested conditionals are proved against.
 */
module Guards {
  import opened Outcomes

  datatype Check<E> = Check(passes: bool, failure: E)

  /** The rejection of the earliest failing check, or `None` when every check passes. */
  function FirstFailure<E>(checks: seq<Check<E>>): Option<E> {
    if checks == [] then None
    else if !checks[0].passes then Some(checks[0].failure)
    else FirstFailure(checks[1..])
  }

  /**
   * What `FirstFailure` means: no rejection exactly when every check passes;
   * otherwise the rejection of a failing check that every check before it passes.
   */
  lemma {:induction false} FirstFailureSpec<E>(checks: seq<Check<E>>)
    ensures FirstFailure(checks) == None <==> forall i :: 0 <= i < |checks| ==> checks[i].passes
    ensures FirstFailure(checks).Some? ==>
      exists k :: 0 <= k < |checks| && !checks[k].passes && checks[k].failure == FirstFailure(checks).value
                  && forall j :: 0 <= j < k ==> checks[j].passes
  {
    if checks != [] && checks[0].passes {
      var rest := checks[1..];
      FirstFailureSpec(rest);
      assert forall i :: 1 <= i < |checks| ==> checks[i] == rest[i - 1];
      if FirstFailure(rest).Some? {
        var k :| 0 <= k < |rest| && !rest[k].passes && rest[k].failure == FirstFailure(rest).value
                 && forall j :: 0 <= j < k ==> rest[j].passes;
        assert forall j :: 0 <= j < k + 1 ==> checks[j].passes by {
          forall j | 0 <= j < k + 1 ensures checks[j].passes {
            if j > 0 { assert checks[j] == rest[j - 1]; }
          }
        }
      }
    }
  }

  /** The check at index `k` decides the outcome when it fails and all before it pass. */
  lemma {:induction false} FirstFailureAt<E>(checks: seq<Check<E>>, k: nat)
    requires k < |checks| && !checks[k].passes
    requires forall j :: 0 <= j < k ==> checks[j].passes
    ensures FirstFailure(checks) == Some(checks[k].failure)
  {
    if k > 0 {
      FirstFailureAt(checks[1..], k - 1);
    }
  }

  /** When every check passes there is no rejection. */
  lemma {:induction false} AllPass<E>(checks: seq<Check<E>>)
    requires forall i :: 0 <= i < |checks| ==> checks[i].passes
    ensures FirstFailure(checks) == None
  {
    if checks != [] {
      AllPass(checks[1..]);
    }
  }

  /** A failure among the earlier checks decides, whatever checks follow. */
  lemma {:induction false} PrefixFailureDecides<E>(pre: seq<Check<E>>, post: seq<Check<E>>)
    requires FirstFailure(pre).Some?
    ensures FirstFailure(pre + post) == FirstFailure(pre)
  {
    assert (pre + post)[0] == pre[0];
    if pre[0].passes {
      assert (pre + post)[1..] == pre[1..] + post;
      PrefixFailureDecides(pre[1..], post);
    }
  }

  /** When the earlier checks all pass, the later checks alone decide. */
  lemma {:induction false} AllPassPrefix<E>(pre: seq<Check<E>>, post: seq<Check<E>>)
    requires FirstFailure(pre) == None
    ensures FirstFailure(pre + post) == FirstFailure(post)
  {
    if pre != [] {
      assert (pre + post)[0] == pre[0];
      assert (pre + post)[1..] == pre[1..] + post;
      AllPassPrefix(pre[1..], post);
    } else {
      assert pre + post == post;
    }
  }
}
