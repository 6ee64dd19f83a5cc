/**
 Every library job gets its answer: a job stays with the scheduler until its terminal event went out
 or it was cancelled, and a finished job is offered in every pass.
 */
module LibraryAnswers {
  import opened LibraryEntries
  import opened LibraryScheduler
  import opened LibraryAccounts
  import opened LibraryDelivery
  import opened LibrarySafety
  import opened LibraryTheorems

  predicate TerminalAt(output: seq<Output>, i: nat, job: nat)
  {
    i < |output| && output[i].OutTerminal? && output[i].job == job
  }

  ghost predicate Answered(output: seq<Output>, job: nat)
  {
    exists i :: TerminalAt(output, i, job)
  }

  /** Nobody is forgotten without an answer. */
  ghost predicate NoneForgotten(s: State)
  {
    forall j :: j in s.history ==> j in s.jobs || IsCancelled(s, j) || Answered(s.output, j)
  }

  lemma AnswersStay(s: State, t: State, job: nat)
    requires s.output <= t.output && Answered(s.output, job)
    ensures Answered(t.output, job)
  {
    var i :| TerminalAt(s.output, i, job);
    assert TerminalAt(t.output, i, job);
  }

  /** A step that forgets no job but cancelled and answered ones. */
  lemma KeepingJobs(s: State, t: State)
    requires NoneForgotten(s) && s.output <= t.output && s.cancelled <= t.cancelled
    requires forall j :: j in t.history ==> j in t.jobs || j in s.history
    requires forall j :: j in s.history ==> j in t.history && t.history[j].request == s.history[j].request
    requires forall j :: j in s.jobs ==> j in t.jobs || IsCancelled(t, j) || Answered(t.output, j)
    ensures NoneForgotten(t)
  {
    forall j | j in t.history ensures j in t.jobs || IsCancelled(t, j) || Answered(t.output, j) {
      if j !in t.jobs && j !in s.jobs && Answered(s.output, j) {
        AnswersStay(s, t, j);
      }
    }
  }

  lemma TerminalForgetsNone(s: State, l: Label)
    requires NoneForgotten(s) && Owned(s) && TerminalEnabled(s, l)
    ensures NoneForgotten(TerminalStep(s, l))
  {
    var t := TerminalStep(s, l);
    if l.TerminalSent? {
      assert TerminalAt(t.output, |s.output|, l.id);
    } else if l.TerminalGone? {
      ShutDownCancels(s);
    }
    KeepingJobs(s, t);
  }

  lemma ReceiveForgetsNone(s: State, l: Label)
    requires NoneForgotten(s) && ReceiveEnabled(s, l)
    ensures NoneForgotten(ReceiveStep(s, l))
  {
    KeepingJobs(s, ReceiveStep(s, l));
  }

  lemma WorldForgetsNone(s: State, l: Label)
    requires NoneForgotten(s) && WorldEnabled(s, l)
    ensures NoneForgotten(World(s, l))
  {
    hide NoneForgotten, Answered;
    KeepingJobs(s, World(s, l));
  }

  lemma FlushForgetsNone(s: State, l: Label)
    requires NoneForgotten(s) && FlushEnabled(s, l)
    ensures NoneForgotten(Flush(s, l))
  {
    hide NoneForgotten, Answered;
    KeepingJobs(s, Flush(s, l));
  }

  lemma IngressForgetsNone(s: State, l: Label)
    requires NoneForgotten(s) && Owned(s) && IngressEnabled(s, l)
    ensures NoneForgotten(IngressStep(s, l))
  {
    hide NoneForgotten, Answered;
    KeepingJobs(s, IngressStep(s, l));
  }

  lemma QueueForgetsNone(s: State, l: Label)
    requires NoneForgotten(s) && QueueEnabled(s, l)
    ensures NoneForgotten(QueueStep(s, l))
  {
    hide NoneForgotten, Answered;
    KeepingJobs(s, QueueStep(s, l));
  }

  lemma StepForgetsNone(s: State, l: Label)
    requires NoneForgotten(s) && Owned(s) && Enabled(s, l)
    ensures NoneForgotten(After(s, l))
  {
    hide World, Flush, IngressStep, QueueStep, TerminalStep, ReceiveStep, NoneForgotten;
    hide Owned;
    if WorldEnabled(s, l) {
      WorldForgetsNone(s, l);
    } else if FlushEnabled(s, l) {
      FlushForgetsNone(s, l);
    } else if IngressEnabled(s, l) {
      IngressForgetsNone(s, l);
    } else if QueueEnabled(s, l) {
      QueueForgetsNone(s, l);
    } else if TerminalEnabled(s, l) {
      TerminalForgetsNone(s, l);
    } else {
      ReceiveForgetsNone(s, l);
    }
  }

  lemma {:induction false} RunForgetsNone(s: State, labels: seq<Label>, t: State)
    requires NoneForgotten(s) && Accounts(s) && Leads(s, labels, t)
    ensures NoneForgotten(t)
    decreases |labels|
  {
    if labels != [] {
      StepForgetsNone(s, labels[0]);
      StepKeepsAccounts(s, labels[0]);
      RunForgetsNone(After(s, labels[0]), labels[1..], t);
    }
  }

  /**
   A job that was not cancelled is live exactly as long as no terminal event of it went out, and
   never gets two: every job is answered exactly once unless it is cancelled.
   */
  lemma AnsweredOnce(s: State, j: nat)
    requires Reachable(s) && j in s.history && !IsCancelled(s, j)
    ensures j in s.jobs <==> !Answered(s.output, j)
    ensures forall a, b :: TerminalAt(s.output, a, j) && TerminalAt(s.output, b, j) ==> a == b
  {
    hide Reachable;
    ReachableForgetsNone(s);
    forall a, b | TerminalAt(s.output, a, j) && TerminalAt(s.output, b, j) ensures a == b && j !in s.jobs {
      OneTerminal(s, a, b, j);
    }
  }

  lemma ReachableForgetsNone(s: State)
    requires Reachable(s)
    ensures NoneForgotten(s)
  {
    hide Accounts;
    var labels :| Leads(Initial(), labels, s);
    InitialAccounts();
    RunForgetsNone(Initial(), labels, s);
  }

  lemma OneTerminal(s: State, a: nat, b: nat, j: nat)
    requires Reachable(s) && TerminalAt(s.output, a, j) && TerminalAt(s.output, b, j)
    ensures a == b && j !in s.jobs
  {
    assert LastWord(s) by {
      hide Reachable;
      ReachableInv(s);
    }
  }

  // ---- finished jobs are offered ----

  predicate Offers(l: Label, job: nat)
  {
    l == TerminalSent(job) || l == TerminalFull(job) || l == TerminalGone(job)
  }

  /** The job is finished and its turn in this pass is still to come. */
  ghost predicate Due(s: State, job: nat)
  {
    && job in s.jobs && s.jobs[job].remaining == 0
    && (s.pc == Spawning(1) || (s.pc.Completing? && job in s.pc.ids))
  }

  lemma StepKeepsDue(s: State, l: Label, job: nat)
    requires Due(s, job) && Enabled(s, l) && !Offers(l, job)
    ensures Due(After(s, l), job)
  {
    hide Flush, IngressStep, ReceiveStep;
  }

  /** Between the last starts of a pass and its check whether to stop, every finished job is offered to the output. */
  lemma {:induction false} FinishedIsOffered(s: State, labels: seq<Label>, t: State, job: nat)
    requires Leads(s, labels, t) && s.pc == Spawning(1) && t.pc == Checking
    requires job in s.jobs && s.jobs[job].remaining == 0
    ensures exists i :: 0 <= i < |labels| && Offers(labels[i], job)
  {
    DueIsOffered(s, labels, t, job);
  }

  lemma {:induction false} DueIsOffered(s: State, labels: seq<Label>, t: State, job: nat)
    requires Leads(s, labels, t) && Due(s, job) && t.pc == Checking
    ensures exists i :: 0 <= i < |labels| && Offers(labels[i], job)
    decreases |labels|
  {
    hide Enabled, After, Due;
    assert !Due(t, job) by { NotDue(t, job); }
    if !Offers(labels[0], job) {
      StepKeepsDue(s, labels[0], job);
      DueIsOffered(After(s, labels[0]), labels[1..], t, job);
      var i :| 0 <= i < |labels| - 1 && Offers(labels[1..][i], job);
      assert Offers(labels[i + 1], job);
    }
  }

  lemma NotDue(s: State, job: nat)
    requires s.pc == Checking
    ensures !Due(s, job)
  {
  }

  // ---- what is sent goes out ----

  /** The jobs whose terminal events a run sent, in order. */
  function SentBy(labels: seq<Label>): seq<nat>
  {
    if labels == [] then []
    else (if labels[0].TerminalSent? then [labels[0].id] else []) + SentBy(labels[1..])
  }

  function AnswersIn(output: seq<Output>): seq<nat>
  {
    if output == [] then []
    else
      var last := output[|output| - 1];
      AnswersIn(output[..|output| - 1]) + if last.OutTerminal? then [last.job] else []
  }

  lemma AnswersSnoc(output: seq<Output>, o: Output)
    ensures AnswersIn(output + [o]) == AnswersIn(output) + if o.OutTerminal? then [o.job] else []
  {
    assert (output + [o])[..|output|] == output;
  }

  /** From `s` to `t` the output got no terminal event. */
  ghost predicate NoAnswer(s: State, t: State)
  {
    t.output == s.output || exists o: Output :: !o.OutTerminal? && t.output == s.output + [o]
  }

  lemma NoAnswerIn(s: State, t: State)
    requires NoAnswer(s, t)
    ensures AnswersIn(t.output) == AnswersIn(s.output)
  {
    hide AnswersIn;
    if t.output != s.output {
      var o: Output :| !o.OutTerminal? && t.output == s.output + [o];
      AnswersSnoc(s.output, o);
    }
  }

  lemma FlushAnswersNone(s: State, l: Label)
    requires FlushEnabled(s, l)
    ensures NoAnswer(s, Flush(s, l))
  {
    if l.FlushSent? {
      assert Flush(s, l).output == s.output + [OutBatch(s.pending[0].key.job, s.pending[0].entries)];
    }
  }

  lemma IngressAnswersNone(s: State, l: Label)
    requires IngressEnabled(s, l)
    ensures NoAnswer(s, IngressStep(s, l))
  {
    if l.TakeCancelled? && l.told {
      assert IngressStep(s, l).output == s.output + [OutRefused];
    }
  }

  lemma OthersAnswerNone(s: State, l: Label)
    ensures WorldEnabled(s, l) ==> World(s, l).output == s.output
    ensures QueueEnabled(s, l) ==> QueueStep(s, l).output == s.output
  {
  }

  lemma ReceiveAnswersNone(s: State, l: Label)
    requires ReceiveEnabled(s, l)
    ensures ReceiveStep(s, l).output == s.output
  {
    hide Fresh, Tagged, Paths, Numbered, AfterResult;
  }

  lemma TerminalAnswers(s: State, l: Label)
    requires TerminalEnabled(s, l)
    ensures AnswersIn(TerminalStep(s, l).output) == AnswersIn(s.output) + if l.TerminalSent? then [l.id] else []
  {
    hide AnswersIn, TerminalOf;
    if l.TerminalSent? {
      AnswersSnoc(s.output, OutTerminal(l.id, TerminalOf(s.jobs[l.id], IsCancelled(s, l.id))));
    }
  }

  lemma StepSends(s: State, l: Label)
    requires Enabled(s, l)
    ensures AnswersIn(After(s, l).output) == AnswersIn(s.output) + if l.TerminalSent? then [l.id] else []
  {
    hide AnswersIn, World, Flush, IngressStep, QueueStep, TerminalStep, ReceiveStep;
    if WorldEnabled(s, l) || (QueueEnabled(s, l) && !FlushEnabled(s, l) && !IngressEnabled(s, l)) {
      OthersAnswerNone(s, l);
    } else if FlushEnabled(s, l) {
      FlushAnswersNone(s, l);
      NoAnswerIn(s, After(s, l));
    } else if IngressEnabled(s, l) {
      IngressAnswersNone(s, l);
      NoAnswerIn(s, After(s, l));
    } else if TerminalEnabled(s, l) {
      TerminalAnswers(s, l);
    } else {
      ReceiveAnswersNone(s, l);
    }
  }

  /** The terminal events a run adds to the output are those it sent, in that order. */
  lemma {:induction false} SentGoesOut(s: State, labels: seq<Label>, t: State)
    requires Leads(s, labels, t)
    ensures AnswersIn(t.output) == AnswersIn(s.output) + SentBy(labels)
    decreases |labels|
  {
    hide Enabled, After, AnswersIn;
    if labels != [] {
      StepSends(s, labels[0]);
      SentGoesOut(After(s, labels[0]), labels[1..], t);
    }
  }
}
