/** The sampler and the main program: two threads that share the metrics, a stop channel and a wait group.
    A run is any interleaving of their steps; a step that is not enabled leaves the state as it is. */
module Sampler {
  import opened Wrappers
  import opened Metrics

  /** Where the main program is. */
  datatype MainPC =
    | Starting      // the child has not been started yet
    | StartFailed   // the child could not be started
    | Running       // waiting for the child
    | Ended         // the child has ended
    | Abandoning    // stop is closed, waiting for the sampler, nothing will be reported
    | Closing       // stop is closed, waiting for the sampler
    | Joined        // the sampler is gone
    | Reported
    | Exited

  /** Where the sampler is; it is absent when the runtime did not answer at the start. */
  datatype SamplerPC = Absent | Selecting | Polling | Updating(sample: Sample) | Done

  datatype State = State(
    main: MainPC,
    sampler: SamplerPC,
    closes: nat,
    polled: seq<Sample>,
    metrics: Peaks,
    report: Option<Peaks>)

  datatype Action =
    | StartChild(ok: bool)
    | ChildEnds
    | CloseStop
    | Join
    | PrintReport
    | Tick
    | PollReturns(sample: Sample)
    | Update
    | SeeStop

  predicate SamplerGone(st: State) {
    st.sampler.Absent? || st.sampler.Done?
  }

  function MainStep(st: State, a: Action): State {
    match a
    case StartChild(ok) => if st.main.Starting? then st.(main := if ok then Running else StartFailed) else st
    case ChildEnds => if st.main.Running? then st.(main := Ended) else st
    case CloseStop =>
      if st.main.Ended? then st.(main := Closing, closes := st.closes + 1)
      else if st.main.StartFailed? then st.(main := Abandoning, closes := st.closes + 1)
      else st
    case Join =>
      if st.main.Closing? && SamplerGone(st) then st.(main := Joined)
      else if st.main.Abandoning? && SamplerGone(st) then st.(main := Exited)
      else st
    case PrintReport =>
      if st.main.Joined? then
        st.(main := Reported, report := if st.sampler.Absent? then None else Some(st.metrics))
      else st
    case _ => st
  }

  /** A tick may win over a closed stop channel: the choice between ready cases is arbitrary. */
  function SamplerStep(st: State, a: Action, inspect: Inspect): State {
    match a
    case Tick => if st.sampler.Selecting? then st.(sampler := Polling) else st
    case PollReturns(sample) =>
      if st.sampler.Polling? then
        st.(sampler := if sample == [] then Selecting else Updating(sample), polled := st.polled + [sample])
      else st
    case Update =>
      if st.sampler.Updating? then
        st.(sampler := Selecting, metrics := Updated(st.metrics, st.sampler.sample, inspect))
      else st
    case SeeStop => if st.sampler.Selecting? && st.closes > 0 then st.(sampler := Done) else st
    case _ => st
  }

  function Next(st: State, a: Action, inspect: Inspect): State {
    SamplerStep(MainStep(st, a), a, inspect)
  }

  function Run(st: State, actions: seq<Action>, inspect: Inspect): State
    decreases |actions|
  {
    if actions == [] then st else Run(Next(st, actions[0], inspect), actions[1..], inspect)
  }

  function Initial(podmanAvailable: bool): State {
    State(Starting, if podmanAvailable then Selecting else Absent, 0, [], NOTHING, None)
  }

  function NonEmpty(polled: seq<Sample>): seq<Sample> {
    if polled == [] then []
    else NonEmpty(polled[..|polled| - 1]) + (if polled[|polled| - 1] == [] then [] else [polled[|polled| - 1]])
  }

  /** The samples already folded: all non-empty ones polled but the one in flight. */
  function FoldedSoFar(st: State): seq<Sample> {
    if st.sampler.Updating? && st.polled != [] then NonEmpty(st.polled[..|st.polled| - 1]) else NonEmpty(st.polled)
  }

  predicate HasClosed(pc: MainPC) {
    pc.Abandoning? || pc.Closing? || pc.Joined? || pc.Reported? || pc.Exited?
  }

  predicate HasJoined(pc: MainPC) {
    pc.Joined? || pc.Reported? || pc.Exited?
  }

  ghost predicate Inv(st: State, inspect: Inspect) {
    && st.closes == (if HasClosed(st.main) then 1 else 0)
    && (st.sampler.Updating? ==>
          st.polled != [] && st.polled[|st.polled| - 1] == st.sampler.sample && st.sampler.sample != [])
    && (st.sampler.Done? ==> HasClosed(st.main))
    && (HasJoined(st.main) ==> SamplerGone(st))
    && (st.sampler.Absent? ==> st.polled == [])
    && st.metrics == Folded(FoldedSoFar(st), inspect)
    && (st.report.Some? ==> st.main.Reported? && st.report.value == st.metrics)
    && (st.main.Reported? ==> (st.report.Some? <==> !st.sampler.Absent?))
  }

  lemma FoldedOneMore(history: seq<Sample>, sample: Sample, inspect: Inspect)
    ensures Folded(history + [sample], inspect) == Updated(Folded(history, inspect), sample, inspect)
  {
    assert (history + [sample])[..|history|] == history;
  }

  predicate OfMain(a: Action) {
    a.StartChild? || a.ChildEnds? || a.CloseStop? || a.Join? || a.PrintReport?
  }

  /** A step of the main program touches neither what has been polled nor the metrics. */
  lemma MainInv(st: State, a: Action, inspect: Inspect)
    requires Inv(st, inspect) && OfMain(a)
    ensures Inv(Next(st, a, inspect), inspect)
  {
    hide Folded, NonEmpty;
    assert FoldedSoFar(Next(st, a, inspect)) == FoldedSoFar(st);
  }

  lemma NonEmptyMore(polled: seq<Sample>, sample: Sample)
    ensures NonEmpty(polled + [sample]) == NonEmpty(polled) + (if sample == [] then [] else [sample])
  {
    assert (polled + [sample])[..|polled|] == polled;
  }

  lemma PollInv(st: State, sample: Sample, inspect: Inspect)
    requires Inv(st, inspect)
    ensures Inv(Next(st, PollReturns(sample), inspect), inspect)
  {
    var nt := Next(st, PollReturns(sample), inspect);
    NonEmptyMore(st.polled, sample);
    hide Folded, NonEmpty;
    if st.sampler.Polling? {
      assert nt.polled[..|nt.polled| - 1] == st.polled;
      assert NonEmpty(st.polled) + [] == NonEmpty(st.polled);
      assert FoldedSoFar(nt) == FoldedSoFar(st);
    }
  }

  lemma NonEmptyLast(polled: seq<Sample>)
    requires polled != [] && polled[|polled| - 1] != []
    ensures NonEmpty(polled) == NonEmpty(polled[..|polled| - 1]) + [polled[|polled| - 1]]
  {
  }

  lemma UpdateInv(st: State, inspect: Inspect)
    requires Inv(st, inspect)
    ensures Inv(Next(st, Update, inspect), inspect)
  {
    var nt := Next(st, Update, inspect);
    if st.sampler.Updating? {
      hide Folded, NonEmpty, Updated;
      FoldedOneMore(FoldedSoFar(st), st.sampler.sample, inspect);
      NonEmptyLast(st.polled);
      assert FoldedSoFar(nt) == FoldedSoFar(st) + [st.sampler.sample];
    }
  }

  /** A tick and the sight of the closed channel change only where the sampler is. */
  lemma SignalInv(st: State, a: Action, inspect: Inspect)
    requires Inv(st, inspect) && (a.Tick? || a.SeeStop?)
    ensures Inv(Next(st, a, inspect), inspect)
  {
    hide Folded, NonEmpty;
    assert FoldedSoFar(Next(st, a, inspect)) == FoldedSoFar(st);
  }

  lemma NextInv(st: State, a: Action, inspect: Inspect)
    requires Inv(st, inspect)
    ensures Inv(Next(st, a, inspect), inspect)
  {
    hide Inv, Next;
    match a
    case Update => UpdateInv(st, inspect);
    case PollReturns(sample) => PollInv(st, sample, inspect);
    case Tick => SignalInv(st, a, inspect);
    case SeeStop => SignalInv(st, a, inspect);
    case _ => MainInv(st, a, inspect);
  }

  lemma {:induction false} RunInv(st: State, actions: seq<Action>, inspect: Inspect)
    requires Inv(st, inspect)
    ensures Inv(Run(st, actions, inspect), inspect)
    decreases |actions|
  {
    hide Inv;
    if actions != [] {
      NextInv(st, actions[0], inspect);
      RunInv(Next(st, actions[0], inspect), actions[1..], inspect);
    }
  }

  lemma InitialInv(podmanAvailable: bool, inspect: Inspect)
    ensures Inv(Initial(podmanAvailable), inspect)
  {
  }

  /** In every interleaving, what the report reads is exactly the fold of all non-empty samples polled. */
  lemma ReportIsFoldOfSamples(podmanAvailable: bool, actions: seq<Action>, inspect: Inspect)
    ensures var st := Run(Initial(podmanAvailable), actions, inspect);
            && (st.main.Reported? ==> (st.report.Some? <==> podmanAvailable))
            && (st.report.Some? ==> st.report.value == Folded(NonEmpty(st.polled), inspect))
  {
    InitialInv(podmanAvailable, inspect);
    RunInv(Initial(podmanAvailable), actions, inspect);
    AbsentStays(Initial(podmanAvailable), actions, inspect);
  }

  lemma {:induction false} AbsentStays(st: State, actions: seq<Action>, inspect: Inspect)
    ensures Run(st, actions, inspect).sampler.Absent? <==> st.sampler.Absent?
    decreases |actions|
  {
    if actions != [] {
      AbsentStays(Next(st, actions[0], inspect), actions[1..], inspect);
    }
  }

  lemma {:induction false} RunAppend(st: State, first: seq<Action>, second: seq<Action>, inspect: Inspect)
    ensures Run(st, first + second, inspect) == Run(Run(st, first, inspect), second, inspect)
    decreases |first|
  {
    hide Next;
    if first == [] {
      assert first + second == second;
    } else {
      assert (first + second)[1..] == first[1..] + second;
      RunAppend(Next(st, first[0], inspect), first[1..], second, inspect);
    }
  }

  /** What the sampler does to poll the given samples one after the other. */
  function Polls(samples: seq<Sample>): seq<Action> {
    if samples == [] then []
    else
      [Tick, PollReturns(samples[0])] + (if samples[0] == [] then [] else [Update]) + Polls(samples[1..])
  }

  lemma {:induction false} PollsAll(st: State, samples: seq<Sample>, inspect: Inspect)
    requires st.sampler.Selecting?
    ensures var nt := Run(st, Polls(samples), inspect);
            nt.main == st.main && nt.sampler == st.sampler && nt.closes == st.closes && nt.report == st.report &&
            nt.polled == st.polled + samples
    decreases |samples|
  {
    if samples == [] {
      assert st.polled + samples == st.polled;
    } else {
      var once := [Tick, PollReturns(samples[0])] + (if samples[0] == [] then [] else [Update]);
      var nt := Run(st, once, inspect);
      PollsOnce(st, samples[0], inspect);
      RunAppend(st, once, Polls(samples[1..]), inspect);
      PollsAll(nt, samples[1..], inspect);
      assert st.polled + [samples[0]] + samples[1..] == st.polled + samples;
    }
  }

  lemma PollsOnce(st: State, sample: Sample, inspect: Inspect)
    requires st.sampler.Selecting?
    ensures var nt := Run(st, [Tick, PollReturns(sample)] + (if sample == [] then [] else [Update]), inspect);
            nt.main == st.main && nt.sampler == st.sampler && nt.closes == st.closes && nt.report == st.report &&
            nt.polled == st.polled + [sample]
  {
    hide Updated;
    var first: seq<Action> := [Tick, PollReturns(sample)];
    var second: seq<Action> := if sample == [] then [] else [Update];
    RunAppend(st, first, second, inspect);
    RunTwo(st, Tick, PollReturns(sample), inspect);
    if sample != [] {
      RunOne(Run(st, first, inspect), Update, inspect);
    }
  }

  lemma RunOne(st: State, a: Action, inspect: Inspect)
    ensures Run(st, [a], inspect) == Next(st, a, inspect)
  {
    hide Next;
  }

  lemma RunTwo(st: State, a: Action, b: Action, inspect: Inspect)
    ensures Run(st, [a, b], inspect) == Next(Next(st, a, inspect), b, inspect)
  {
    hide Next;
    assert [a, b] == [a] + [b];
    RunAppend(st, [a], [b], inspect);
    RunOne(st, a, inspect);
    RunOne(Next(st, a, inspect), b, inspect);
  }

  /** Whatever samples are polled while the child runs, there is a run that ends with a report of exactly these. */
  lemma ReportReachable(samples: seq<Sample>, inspect: Inspect)
    ensures var st := Run(Initial(true), [StartChild(true)] + Polls(samples) +
                          [ChildEnds, CloseStop] + [SeeStop, Join] + [PrintReport], inspect);
            st.main.Reported? && st.polled == samples && st.report == Some(Folded(NonEmpty(samples), inspect))
  {
    hide Polls, Folded, NonEmpty;
    var init := Initial(true);
    var running := Next(init, StartChild(true), inspect);
    var polled := Run(running, Polls(samples), inspect);
    RunOne(init, StartChild(true), inspect);
    RunAppend(init, [StartChild(true)], Polls(samples), inspect);
    PollsAll(running, samples, inspect);
    assert [] + samples == samples;
    var upTo := [StartChild(true)] + Polls(samples);
    RunAppend(init, upTo, [ChildEnds, CloseStop], inspect);
    RunTwo(polled, ChildEnds, CloseStop, inspect);
    var closed := Run(init, upTo + [ChildEnds, CloseStop], inspect);
    RunAppend(init, upTo + [ChildEnds, CloseStop], [SeeStop, Join], inspect);
    RunTwo(closed, SeeStop, Join, inspect);
    var joined := Run(init, upTo + [ChildEnds, CloseStop] + [SeeStop, Join], inspect);
    RunAppend(init, upTo + [ChildEnds, CloseStop] + [SeeStop, Join], [PrintReport], inspect);
    RunOne(joined, PrintReport, inspect);
    var all := upTo + [ChildEnds, CloseStop] + [SeeStop, Join] + [PrintReport];
    ReportIsFoldOfSamples(true, all, inspect);
  }

  /** The child has failed to start. */
  predicate Unstarted(st: State) {
    (st.main.StartFailed? || st.main.Abandoning? || st.main.Exited?) && st.report.None?
  }

  /** If the child cannot be started, nothing is ever reported; the program can then exit. */
  lemma {:induction false} NoReportWithoutChild(st: State, actions: seq<Action>, inspect: Inspect)
    requires Unstarted(st)
    ensures Unstarted(Run(st, actions, inspect))
    decreases |actions|
  {
    if actions != [] {
      hide Updated;
      NoReportWithoutChild(Next(st, actions[0], inspect), actions[1..], inspect);
    }
  }

  lemma ExitReachable(inspect: Inspect)
    ensures Unstarted(Next(Initial(true), StartChild(false), inspect))
    ensures Run(Initial(true), [StartChild(false), CloseStop] + [SeeStop, Join], inspect).main.Exited?
  {
    var init := Initial(true);
    RunTwo(init, StartChild(false), CloseStop, inspect);
    var closed := Run(init, [StartChild(false), CloseStop], inspect);
    RunAppend(init, [StartChild(false), CloseStop], [SeeStop, Join], inspect);
    RunTwo(closed, SeeStop, Join, inspect);
    hide Run, Updated;
  }

  lemma JoinedStep(st: State, a: Action, inspect: Inspect)
    requires Inv(st, inspect) && HasJoined(st.main)
    ensures var nt := Next(st, a, inspect);
            nt.metrics == st.metrics && nt.polled == st.polled && HasJoined(nt.main)
  {
    assert SamplerGone(st);
    hide Inv, Updated, Folded;
  }

  /** Once the main program has waited for the sampler, nothing is polled and no peak changes any more. */
  lemma {:induction false} NothingAfterJoin(st: State, actions: seq<Action>, inspect: Inspect)
    requires Inv(st, inspect) && HasJoined(st.main)
    ensures var nt := Run(st, actions, inspect);
            nt.metrics == st.metrics && nt.polled == st.polled && HasJoined(nt.main)
    decreases |actions|
  {
    hide Inv, Next;
    if actions != [] {
      NextInv(st, actions[0], inspect);
      JoinedStep(st, actions[0], inspect);
      NothingAfterJoin(Next(st, actions[0], inspect), actions[1..], inspect);
    }
  }

  /** The stop channel is never closed twice, and on both paths it has been closed by the time the program is
      done: after a report and after a child that could not be started. */
  lemma StopClosedOnce(podmanAvailable: bool, actions: seq<Action>, inspect: Inspect)
    ensures var st := Run(Initial(podmanAvailable), actions, inspect);
            && st.closes <= 1
            && (st.main.Reported? || st.main.Exited? ==> st.closes == 1 && SamplerGone(st))
  {
    InitialInv(podmanAvailable, inspect);
    RunInv(Initial(podmanAvailable), actions, inspect);
  }
}
