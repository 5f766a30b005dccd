/** Display names in the final report. Containers are visited in the arbitrary order of a map, yet the
    names printed are always the same, and distinct whenever the labels that tell containers apart are. */
module Report {
  import opened Sequences
  import opened Strings
  import opened Units
  import opened Metrics

  /** How one container is told apart from others with the same short name. */
  datatype Label = Bare(short: string) | Served(short: string, service: string) | Numbered(short: string, index: nat) {
    function Render(): string {
      match this
      case Bare(s) => s
      case Served(s, service) => s + " (" + service + ")"
      case Numbered(s, k) => s + " (#" + Digits(k) + ")"
    }
  }

  type Tracker = map<string, nat>

  function Seen(tracker: Tracker, short: string): nat {
    if short in tracker then tracker[short] else 0
  }

  /** `shared` are the short names of more than one container. */
  function LabelOf(shared: set<string>, info: Info, tracker: Tracker): Label {
    if info.shortName !in shared then Bare(info.shortName)
    else if info.service != "" && info.service != info.shortName then Served(info.shortName, info.service)
    else Numbered(info.shortName, Seen(tracker, info.shortName) + 1)
  }

  function Track(shared: set<string>, info: Info, tracker: Tracker): Tracker {
    var mark := LabelOf(shared, info, tracker);
    if mark.Numbered? then tracker[info.shortName := mark.index] else tracker
  }

  /** The labels of containers visited in the given order. */
  function Labels(shared: set<string>, infos: seq<Info>, tracker: Tracker): (labels: seq<Label>)
    ensures |labels| == |infos|
  {
    if infos == [] then []
    else [LabelOf(shared, infos[0], tracker)] + Labels(shared, infos[1..], Track(shared, infos[0], tracker))
  }

  function Mapped<A, B>(f: A -> B, s: seq<A>): (t: seq<B>)
    ensures |t| == |s| && forall i :: 0 <= i < |s| ==> t[i] == f(s[i])
  {
    if s == [] then [] else [f(s[0])] + Mapped(f, s[1..])
  }

  function Rendered(labels: seq<Label>): seq<string> {
    Mapped((l: Label) => l.Render(), labels)
  }

  function ShortNames(infos: seq<Info>): seq<string> {
    Mapped((info: Info) => info.shortName, infos)
  }

  function Shared(infos: seq<Info>): set<string> {
    set s | s in ShortNames(infos) && multiset(ShortNames(infos))[s] > 1
  }

  /** The names printed when the containers are visited in this order. */
  function Names(infos: seq<Info>): seq<string> {
    Rendered(Labels(Shared(infos), infos, map[]))
  }

  // ----- any order gives the same names

  lemma MappedFirst<A, B>(f: A -> B, x: A, s: seq<A>)
    ensures multiset(Mapped(f, [x] + s)) == multiset{f(x)} + multiset(Mapped(f, s))
  {
    assert ([x] + s)[1..] == s;
    First(f(x), Mapped(f, s));
  }

  lemma {:induction false} MappedInserted<A, B>(f: A -> B, before: seq<A>, x: A, after: seq<A>)
    ensures multiset(Mapped(f, before + ([x] + after))) == multiset{f(x)} + multiset(Mapped(f, before + after))
    decreases |before|
  {
    hide Mapped;
    MappedFirst(f, x, after);
    if before == [] {
      assert before + ([x] + after) == [x] + after && before + after == after;
    } else {
      var y, rest := before[0], before[1..];
      MappedInserted(f, rest, x, after);
      MappedFirst(f, y, rest + ([x] + after));
      MappedFirst(f, y, rest + after);
      assert before + ([x] + after) == [y] + (rest + ([x] + after)) && before + after == [y] + (rest + after);
      Exchange(multiset{f(y)}, multiset{f(x)}, multiset(Mapped(f, rest + after)));
    }
  }

  lemma {:induction false} MappedPermuted<A(!new), B>(f: A -> B, a: seq<A>, b: seq<A>)
    requires multiset(a) == multiset(b)
    ensures multiset(Mapped(f, a)) == multiset(Mapped(f, b))
    decreases |a|
  {
    hide Mapped;
    assert |a| == |multiset(a)| == |b|;
    if a == [] {
      assert a == b;
    } else {
      var front, back := TakeOut(a, b);
      MappedPermuted(f, a[1..], front + back);
      MappedFirst(f, a[0], a[1..]);
      MappedInserted(f, front, a[0], back);
      assert a == [a[0]] + a[1..];
    }
  }

  lemma FirstLabel(shared: set<string>, p: Info, rest: seq<Info>, tracker: Tracker)
    ensures multiset(Labels(shared, [p] + rest, tracker)) ==
            multiset{LabelOf(shared, p, tracker)} + multiset(Labels(shared, rest, Track(shared, p, tracker)))
  {
    assert ([p] + rest)[1..] == rest;
    First(LabelOf(shared, p, tracker), Labels(shared, rest, Track(shared, p, tracker)));
  }

  /** Two containers visited one after the other get the same two labels in either order. */
  lemma SwapTwo(shared: set<string>, a: Info, b: Info, tracker: Tracker)
    ensures var ta, tb := Track(shared, a, tracker), Track(shared, b, tracker);
            && Track(shared, b, ta) == Track(shared, a, tb)
            && multiset{LabelOf(shared, a, tracker)} + multiset{LabelOf(shared, b, ta)} ==
               multiset{LabelOf(shared, b, tracker)} + multiset{LabelOf(shared, a, tb)}
  {
  }

  lemma SwapFirst(shared: set<string>, a: Info, b: Info, rest: seq<Info>, tracker: Tracker)
    ensures multiset(Labels(shared, [a] + ([b] + rest), tracker)) ==
            multiset(Labels(shared, [b] + ([a] + rest), tracker))
  {
    hide Labels, Track, LabelOf;
    var ta, tb := Track(shared, a, tracker), Track(shared, b, tracker);
    SwapTwo(shared, a, b, tracker);
    FirstLabel(shared, a, [b] + rest, tracker);
    FirstLabel(shared, b, rest, ta);
    FirstLabel(shared, b, [a] + rest, tracker);
    FirstLabel(shared, a, rest, tb);
    var tail := multiset(Labels(shared, rest, Track(shared, b, ta)));
    Regroup(multiset{LabelOf(shared, a, tracker)}, multiset{LabelOf(shared, b, ta)}, tail);
    Regroup(multiset{LabelOf(shared, b, tracker)}, multiset{LabelOf(shared, a, tb)}, tail);
  }

  lemma {:induction false} MoveToFront(shared: set<string>, before: seq<Info>, x: Info, after: seq<Info>,
                                       tracker: Tracker)
    ensures multiset(Labels(shared, before + ([x] + after), tracker)) ==
            multiset(Labels(shared, [x] + (before + after), tracker))
    decreases |before|
  {
    hide Labels, Track, LabelOf;
    if before == [] {
      assert before + ([x] + after) == [x] + (before + after);
    } else {
      var p, rest := before[0], before[1..];
      assert before + ([x] + after) == [p] + (rest + ([x] + after));
      assert before + after == [p] + (rest + after);
      MoveToFront(shared, rest, x, after, Track(shared, p, tracker));
      FirstLabel(shared, p, rest + ([x] + after), tracker);
      FirstLabel(shared, p, [x] + (rest + after), tracker);
      SwapFirst(shared, p, x, rest + after, tracker);
    }
  }

  lemma {:induction false} LabelsPermuted(shared: set<string>, a: seq<Info>, b: seq<Info>, tracker: Tracker)
    requires multiset(a) == multiset(b)
    ensures multiset(Labels(shared, a, tracker)) == multiset(Labels(shared, b, tracker))
    decreases |a|
  {
    hide Labels, Track, LabelOf;
    assert |a| == |multiset(a)| == |b|;
    if a == [] {
      assert a == b;
    } else {
      var x := a[0];
      var front, back := TakeOut(a, b);
      assert a == [x] + a[1..];
      MoveToFront(shared, front, x, back, tracker);
      LabelsPermuted(shared, a[1..], front + back, Track(shared, x, tracker));
      FirstLabel(shared, x, a[1..], tracker);
      FirstLabel(shared, x, front + back, tracker);
    }
  }

  lemma SharedIgnoresOrder(a: seq<Info>, b: seq<Info>)
    requires multiset(a) == multiset(b)
    ensures Shared(a) == Shared(b)
  {
    hide Mapped;
    MappedPermuted((info: Info) => info.shortName, a, b);
    assert forall s :: s in ShortNames(a) <==> s in multiset(ShortNames(a));
    assert forall s :: s in ShortNames(b) <==> s in multiset(ShortNames(b));
  }

  /** Whatever order the containers are visited in, the same names are printed. */
  lemma NamesIgnoreOrder(a: seq<Info>, b: seq<Info>)
    requires multiset(a) == multiset(b)
    ensures multiset(Names(a)) == multiset(Names(b))
  {
    hide Mapped, Labels;
    SharedIgnoresOrder(a, b);
    LabelsPermuted(Shared(a), a, b, map[]);
    MappedPermuted((l: Label) => l.Render(), Labels(Shared(a), a, map[]), Labels(Shared(b), b, map[]));
  }

  // ----- distinct names

  predicate Distinct<T(==)>(s: seq<T>) {
    forall i, j :: 0 <= i < j < |s| ==> s[i] != s[j]
  }

  predicate OccursAt(s: string, part: string, i: nat) {
    i + |part| <= |s| && s[i..i + |part|] == part
  }

  predicate Contains(s: string, part: string) {
    exists i :: 0 <= i <= |s| && OccursAt(s, part, i)
  }

  /** Short names and services from which a rendered name can be read back. */
  predicate Readable(info: Info) {
    !Contains(info.shortName, " (") && !HasPrefix(info.service, "#")
  }

  predicate ReadableLabel(mark: Label) {
    !Contains(mark.short, " (") && (mark.Served? ==> !HasPrefix(mark.service, "#"))
  }

  /** The parenthesis opens where the short name ends. */
  lemma ParenthesisSplits(s: string, t: string, x: string, y: string)
    requires !Contains(s, " (") && !Contains(t, " (")
    requires s + " (" + x == t + " (" + y
    ensures s == t && x == y
  {
    var all := s + " (" + x;
    if |s| < |t| {
      ParenthesisLater(t, s, y, x);
      assert false;
    } else if |t| < |s| {
      ParenthesisLater(s, t, x, y);
      assert false;
    } else {
      assert all[..|s|] == s && (t + " (" + y)[..|t|] == t;
      assert all[|s| + 2..] == x && (t + " (" + y)[|t| + 2..] == y;
    }
  }

  lemma ParenthesisLater(long: string, short: string, x: string, y: string)
    requires |short| < |long| && long + " (" + x == short + " (" + y
    ensures Contains(long, " (")
  {
    var all, k := long + " (" + x, |short|;
    assert all == short + " (" + y;
    assert all[k] == ' ' && all[k + 1] == '(';
    assert k + 1 < |long| by {
      assert all[|long|] == ' ';
    }
    assert OccursAt(long, " (", k);
  }

  lemma BareIsNoOther(s: string, t: string, x: string)
    requires !Contains(s, " (")
    ensures s != t + " (" + x
  {
    if s == t + " (" + x {
      assert OccursAt(s, " (", |t|);
    }
  }

  lemma RenderInjective(a: Label, b: Label)
    requires ReadableLabel(a) && ReadableLabel(b) && a.Render() == b.Render()
    ensures a == b
  {
    if a.Bare? && !b.Bare? {
      BareIsNoOther(a.short, b.short, Inside(b) + ")");
      InsideOf(b);
    } else if !a.Bare? && b.Bare? {
      BareIsNoOther(b.short, a.short, Inside(a) + ")");
      InsideOf(a);
    } else if !a.Bare? && !b.Bare? {
      InsideOf(a);
      InsideOf(b);
      ParenthesisSplits(a.short, b.short, Inside(a) + ")", Inside(b) + ")");
      assert (Inside(a) + ")")[..|Inside(a)|] == Inside(a) && (Inside(b) + ")")[..|Inside(b)|] == Inside(b);
      if a.Numbered? && b.Numbered? {
        DigitsBack(a.index);
        DigitsBack(b.index);
        assert Inside(a)[1..] == Digits(a.index) && Inside(b)[1..] == Digits(b.index);
      }
    }
  }

  /** What stands between the parentheses. */
  function Inside(mark: Label): string {
    match mark
    case Bare(_) => ""
    case Served(_, service) => service
    case Numbered(_, k) => "#" + Digits(k)
  }

  lemma InsideOf(mark: Label)
    requires !mark.Bare?
    ensures mark.Render() == mark.short + " (" + (Inside(mark) + ")")
  {
    if mark.Numbered? {
      assert " (#" == " (" + "#";
    }
  }

  /** Two containers that share a short name and are labelled with the same service. */
  ghost predicate SameService(shared: set<string>, a: Info, b: Info) {
    && a.shortName in shared && a.shortName == b.shortName && a.service == b.service
    && a.service != "" && a.service != a.shortName
  }

  /** Later labels of a short name carry higher numbers. */
  lemma {:induction false} NumbersGrow(shared: set<string>, infos: seq<Info>, tracker: Tracker, i: nat)
    requires i < |infos| && Labels(shared, infos, tracker)[i].Numbered?
    ensures var l := Labels(shared, infos, tracker)[i];
            l.short == infos[i].shortName && l.index > Seen(tracker, l.short)
    decreases |infos|
  {
    if i > 0 {
      NumbersGrow(shared, infos[1..], Track(shared, infos[0], tracker), i - 1);
    }
  }

  lemma {:induction false} LabelKind(shared: set<string>, infos: seq<Info>, tracker: Tracker, i: nat)
    requires i < |infos|
    ensures var l := Labels(shared, infos, tracker)[i];
            && l.short == infos[i].shortName
            && (l.Bare? <==> infos[i].shortName !in shared)
            && (l.Served? <==>
                  infos[i].shortName in shared && infos[i].service != "" && infos[i].service != infos[i].shortName)
            && (l.Served? ==> l.service == infos[i].service)
    decreases |infos|
  {
    if i > 0 {
      LabelKind(shared, infos[1..], Track(shared, infos[0], tracker), i - 1);
    }
  }

  lemma {:induction false} SameLabelIff(shared: set<string>, infos: seq<Info>, tracker: Tracker, i: nat, j: nat)
    requires i < j < |infos|
    ensures Labels(shared, infos, tracker)[i] == Labels(shared, infos, tracker)[j] <==>
            || SameService(shared, infos[i], infos[j])
            || (infos[i].shortName !in shared && infos[i].shortName == infos[j].shortName)
    decreases |infos|
  {
    var labels := Labels(shared, infos, tracker);
    if i > 0 {
      SameLabelIff(shared, infos[1..], Track(shared, infos[0], tracker), i - 1, j - 1);
    } else {
      LabelKind(shared, infos, tracker, 0);
      LabelKind(shared, infos, tracker, j);
      if labels[0].Numbered? && labels[j].Numbered? && labels[0].short == labels[j].short {
        NumbersGrow(shared, infos[1..], Track(shared, infos[0], tracker), j - 1);
      }
    }
  }

  lemma NotSharedOnce(infos: seq<Info>, i: nat, j: nat)
    requires i < j < |infos| && infos[i].shortName == infos[j].shortName
    ensures infos[i].shortName in Shared(infos)
  {
    var shorts := ShortNames(infos);
    assert shorts[i] in shorts;
    hide Mapped, ShortNames;
    TwiceCounted(shorts, i, j);
  }

  lemma SameNameIff(infos: seq<Info>, i: nat, j: nat)
    requires i < j < |infos| && Readable(infos[i]) && Readable(infos[j])
    ensures Names(infos)[i] == Names(infos)[j] <==> SameService(Shared(infos), infos[i], infos[j])
  {
    var shared := Shared(infos);
    var labels := Labels(shared, infos, map[]);
    SameLabelIff(shared, infos, map[], i, j);
    LabelKind(shared, infos, map[], i);
    LabelKind(shared, infos, map[], j);
    if infos[i].shortName == infos[j].shortName {
      NotSharedOnce(infos, i, j);
    }
    assert Names(infos)[i] == labels[i].Render() && Names(infos)[j] == labels[j].Render();
    assert ReadableLabel(labels[i]) && ReadableLabel(labels[j]);
    hide Labels, Shared, Names, Contains, HasPrefix, Label.Render;
    if labels[i].Render() == labels[j].Render() {
      RenderInjective(labels[i], labels[j]);
    }
  }

  /** No two containers with the same short name are labelled with the same service. */
  ghost predicate Unambiguous(infos: seq<Info>) {
    forall i, j :: 0 <= i < j < |infos| ==> !SameService(Shared(infos), infos[i], infos[j])
  }

  /** For readable names and services, the names printed are pairwise distinct exactly then. */
  lemma NamesDistinctIff(infos: seq<Info>)
    requires forall i :: 0 <= i < |infos| ==> Readable(infos[i])
    ensures Distinct(Names(infos)) <==> Unambiguous(infos)
  {
    assert |Names(infos)| == |infos|;
    hide Names, Shared, SameService, Readable;
    if Unambiguous(infos) {
      forall i, j | 0 <= i < j < |infos|
        ensures Names(infos)[i] != Names(infos)[j]
      {
        SameNameIff(infos, i, j);
      }
    }
    if Distinct(Names(infos)) {
      forall i, j | 0 <= i < j < |infos|
        ensures !SameService(Shared(infos), infos[i], infos[j])
      {
        SameNameIff(infos, i, j);
      }
    }
  }

  // ----- the names themselves

  /** The container is told apart by its service. */
  predicate Told(info: Info) {
    info.service != "" && info.service != info.shortName
  }

  /** How many containers of the name come before position `i` that are not told apart by a service. */
  function UntoldBefore(infos: seq<Info>, short: string, i: nat): nat
    requires i <= |infos|
  {
    if i == 0 then 0
    else
      UntoldBefore(infos, short, i - 1) +
      (if infos[i - 1].shortName == short && !Told(infos[i - 1]) then 1 else 0)
  }

  lemma {:induction false} UntoldRest(infos: seq<Info>, short: string, i: nat)
    requires 0 < i <= |infos|
    ensures UntoldBefore(infos, short, i) ==
            UntoldBefore(infos[1..], short, i - 1) + (if infos[0].shortName == short && !Told(infos[0]) then 1 else 0)
  {
    if i > 1 {
      UntoldRest(infos, short, i - 1);
    }
  }

  lemma {:induction false} LabelAt(shared: set<string>, infos: seq<Info>, tracker: Tracker, i: nat)
    requires i < |infos| && infos[i].shortName in shared
    ensures Labels(shared, infos, tracker)[i] ==
            if Told(infos[i]) then Served(infos[i].shortName, infos[i].service)
            else
              Numbered(infos[i].shortName,
                       Seen(tracker, infos[i].shortName) + UntoldBefore(infos, infos[i].shortName, i) + 1)
    decreases |infos|
  {
    if i > 0 {
      UntoldRest(infos, infos[i].shortName, i);
      LabelAt(shared, infos[1..], Track(shared, infos[0], tracker), i - 1);
    }
  }

  /** The name of every container, in the order visited: its short name if no other container has that; or else with
      its service, if it has one of another name; or else with a number, counting from one. */
  lemma NameAt(infos: seq<Info>, i: nat)
    requires i < |infos|
    ensures var short, name := infos[i].shortName, Names(infos)[i];
            if forall j :: 0 <= j < |infos| && j != i ==> infos[j].shortName != short then name == short
            else if Told(infos[i]) then name == short + " (" + infos[i].service + ")"
            else name == short + " (#" + Digits(UntoldBefore(infos, short, i) + 1) + ")"
  {
    hide Names, Told;
    if forall j :: 0 <= j < |infos| && j != i ==> infos[j].shortName != infos[i].shortName {
      AloneNamed(infos, i);
    } else {
      var j :| 0 <= j < |infos| && j != i && infos[j].shortName == infos[i].shortName;
      SharedNamed(infos, i, j);
    }
  }

  lemma NameIsLabel(infos: seq<Info>, i: nat)
    requires i < |infos|
    ensures Names(infos)[i] == Labels(Shared(infos), infos, map[])[i].Render()
  {
    hide Labels, Shared, Mapped, Label.Render;
  }

  lemma AloneNamed(infos: seq<Info>, i: nat)
    requires i < |infos| && forall j :: 0 <= j < |infos| && j != i ==> infos[j].shortName != infos[i].shortName
    ensures Names(infos)[i] == infos[i].shortName
  {
    NameIsLabel(infos, i);
    AloneNotShared(infos, i);
    LabelKind(Shared(infos), infos, map[], i);
    hide Labels, Shared, Names;
  }

  lemma SharedLabel(infos: seq<Info>, i: nat, j: nat)
    requires i < |infos| && j < |infos| && i != j && infos[j].shortName == infos[i].shortName
    ensures var short := infos[i].shortName;
            Labels(Shared(infos), infos, map[])[i] ==
            if Told(infos[i]) then Served(short, infos[i].service)
            else Numbered(short, UntoldBefore(infos, short, i) + 1)
  {
    hide Shared, Labels, Told, UntoldBefore;
    if i < j {
      NotSharedOnce(infos, i, j);
    } else {
      NotSharedOnce(infos, j, i);
    }
    LabelAt(Shared(infos), infos, map[], i);
  }

  lemma SharedNamed(infos: seq<Info>, i: nat, j: nat)
    requires i < |infos| && j < |infos| && i != j && infos[j].shortName == infos[i].shortName
    ensures var short := infos[i].shortName;
            Names(infos)[i] ==
            if Told(infos[i]) then short + " (" + infos[i].service + ")"
            else short + " (#" + Digits(UntoldBefore(infos, short, i) + 1) + ")"
  {
    hide Labels, UntoldBefore, Shared, Told, Digits, Names;
    NameIsLabel(infos, i);
    SharedLabel(infos, i, j);
  }

  lemma AloneNotShared(infos: seq<Info>, i: nat)
    requires i < |infos| && forall j :: 0 <= j < |infos| && j != i ==> infos[j].shortName != infos[i].shortName
    ensures infos[i].shortName !in Shared(infos)
  {
    var shorts := ShortNames(infos);
    assert forall j :: 0 <= j < |infos| ==> shorts[j] == infos[j].shortName;
    hide ShortNames, Mapped;
    OnceCounted(shorts, i);
  }

  // ----- the naming loops

  /** Containers listed by identifier. */
  function Visited(containers: map<string, Info>, order: seq<string>): (infos: seq<Info>)
    requires forall c <- order :: c in containers
    ensures |infos| == |order| && forall i :: 0 <= i < |order| ==> infos[i] == containers[order[i]]
  {
    seq(|order|, i requires 0 <= i < |order| => containers[order[i]])
  }

  ghost predicate Enumerates(order: seq<string>, containers: map<string, Info>) {
    multiset(order) == multiset(containers.Keys) && forall c <- order :: c in containers
  }

  function TrackAll(shared: set<string>, infos: seq<Info>, tracker: Tracker): Tracker {
    if infos == [] then tracker else TrackAll(shared, infos[1..], Track(shared, infos[0], tracker))
  }

  lemma {:induction false} LabelsAppend(shared: set<string>, infos: seq<Info>, x: Info, tracker: Tracker)
    ensures Labels(shared, infos + [x], tracker) ==
            Labels(shared, infos, tracker) + [LabelOf(shared, x, TrackAll(shared, infos, tracker))]
    ensures TrackAll(shared, infos + [x], tracker) == Track(shared, x, TrackAll(shared, infos, tracker))
    decreases |infos|
  {
    hide Track, LabelOf;
    if infos == [] {
      assert infos + [x] == [x] && [x][1..] == [];
    } else {
      assert infos + [x] == [infos[0]] + (infos[1..] + [x]);
      LabelsAppend(shared, infos[1..], x, Track(shared, infos[0], tracker));
    }
  }

  lemma MappedAppend<A, B>(f: A -> B, s: seq<A>, x: A)
    ensures Mapped(f, s + [x]) == Mapped(f, s) + [f(x)]
  {
  }

  /** `order` has been visited and `todo` is still to be visited. */
  ghost predicate Visiting(containers: map<string, Info>, order: seq<string>, todo: set<string>) {
    && todo <= containers.Keys
    && (forall c <- order :: c in containers)
    && multiset(order) == multiset(containers.Keys - todo)
  }

  lemma VisitOne(containers: map<string, Info>, order: seq<string>, todo: set<string>, c: string)
    requires Visiting(containers, order, todo) && c in todo
    ensures Visiting(containers, order + [c], todo - {c})
    ensures Visited(containers, order + [c]) == Visited(containers, order) + [containers[c]]
  {
    assert containers.Keys - (todo - {c}) == (containers.Keys - todo) + {c};
  }

  lemma VisitNone(containers: map<string, Info>)
    ensures Visiting(containers, [], containers.Keys)
  {
    assert containers.Keys - containers.Keys == {};
  }

  lemma VisitedAll(containers: map<string, Info>, order: seq<string>)
    requires Visiting(containers, order, {})
    ensures Enumerates(order, containers)
  {
    assert containers.Keys - {} == containers.Keys;
  }

  ghost predicate Counted(counts: Tracker, infos: seq<Info>) {
    forall s :: Seen(counts, s) == multiset(ShortNames(infos))[s]
  }

  lemma CountOne(counts: Tracker, infos: seq<Info>, info: Info)
    requires Counted(counts, infos)
    ensures Counted(counts[info.shortName := Seen(counts, info.shortName) + 1], infos + [info])
  {
    MappedAppend((i: Info) => i.shortName, infos, info);
    hide Mapped;
  }

  /** The first loop: counts the containers of each short name. */
  method CountShortNames(containers: map<string, Info>) returns (counts: Tracker, ghost order: seq<string>)
    ensures Enumerates(order, containers) && Counted(counts, Visited(containers, order))
  {
    hide Mapped, Counted, Visited;
    counts, order := map[], [];
    var todo := containers.Keys;
    VisitNone(containers);
    CountNone(containers);
    while todo != {}
      invariant Visiting(containers, order, todo)
      invariant Counted(counts, Visited(containers, order))
    {
      var c :| c in todo;
      var short := containers[c].shortName;
      VisitOne(containers, order, todo, c);
      CountOne(counts, Visited(containers, order), containers[c]);
      counts := counts[short := Seen(counts, short) + 1];
      order := order + [c];
      todo := todo - {c};
    }
    VisitedAll(containers, order);
  }

  lemma CountNone(containers: map<string, Info>)
    ensures Counted(map[], Visited(containers, []))
  {
  }

  lemma SharedCounted(counts: Tracker, infos: seq<Info>, s: string)
    requires Counted(counts, infos)
    ensures s in Shared(infos) <==> Seen(counts, s) > 1
  {
    hide Mapped;
    assert s in ShortNames(infos) <==> s in multiset(ShortNames(infos));
  }

  /** The name of one container, given how many containers have its short name. */
  method NameOne(info: Info, instances: nat, tracker: Tracker, ghost shared: set<string>)
    returns (name: string, tracker': Tracker)
    requires info.shortName in shared <==> instances > 1
    ensures name == LabelOf(shared, info, tracker).Render()
    ensures tracker' == Track(shared, info, tracker)
  {
    name, tracker' := info.shortName, tracker;
    if instances > 1 {
      if info.service != "" && info.service != info.shortName {
        name := info.shortName + " (" + info.service + ")";
      } else {
        tracker' := tracker[info.shortName := Seen(tracker, info.shortName) + 1];
        name := info.shortName + " (#" + Digits(tracker'[info.shortName]) + ")";
      }
    }
  }

  /** The names of a run's containers, in the order a map happens to be visited in. */
  method DisplayNames(containers: map<string, Info>) returns (names: seq<string>)
    ensures forall order :: Enumerates(order, containers) ==>
                              multiset(names) == multiset(Names(Visited(containers, order)))
  {
    hide Mapped, Visited, Counted, Shared, LabelOf, Track, Label.Render;
    ghost var counted;
    var counts;
    counts, counted := CountShortNames(containers);
    ghost var shared := Shared(Visited(containers, counted));
    ghost var order: seq<string> := [];
    names := [];
    var tracker: Tracker := map[];
    var todo := containers.Keys;
    VisitNone(containers);
    NamesNone(shared, containers);
    while todo != {}
      invariant Visiting(containers, order, todo)
      invariant tracker == TrackAll(shared, Visited(containers, order), map[])
      invariant names == Rendered(Labels(shared, Visited(containers, order), map[]))
    {
      var c :| c in todo;
      ghost var infos := Visited(containers, order);
      VisitOne(containers, order, todo, c);
      SharedCounted(counts, Visited(containers, counted), containers[c].shortName);
      LabelsAppend(shared, infos, containers[c], map[]);
      MappedAppend((l: Label) => l.Render(), Labels(shared, infos, map[]), LabelOf(shared, containers[c], tracker));
      var name;
      name, tracker := NameOne(containers[c], Seen(counts, containers[c].shortName), tracker, shared);
      names := names + [name];
      order := order + [c];
      todo := todo - {c};
    }
    VisitedAll(containers, order);
    AnyOrder(containers, counted, order, names);
  }

  lemma NamesNone(shared: set<string>, containers: map<string, Info>)
    ensures TrackAll(shared, Visited(containers, []), map[]) == map[]
    ensures Rendered(Labels(shared, Visited(containers, []), map[])) == []
  {
    assert Visited(containers, []) == [];
  }

  lemma VisitedPermuted(containers: map<string, Info>, a: seq<string>, b: seq<string>)
    requires Enumerates(a, containers) && Enumerates(b, containers)
    ensures multiset(Visited(containers, a)) == multiset(Visited(containers, b))
  {
    var f := (c: string) => if c in containers then containers[c] else Info("", "", "", "", "");
    assert Visited(containers, a) == Mapped(f, a) && Visited(containers, b) == Mapped(f, b);
    MappedPermuted(f, a, b);
  }

  lemma AnyOrder(containers: map<string, Info>, counted: seq<string>, visited: seq<string>, names: seq<string>)
    requires Enumerates(counted, containers) && Enumerates(visited, containers)
    requires names == Rendered(Labels(Shared(Visited(containers, counted)), Visited(containers, visited), map[]))
    ensures forall order :: Enumerates(order, containers) ==>
                              multiset(names) == multiset(Names(Visited(containers, order)))
  {
    hide Labels, Mapped;
    SharedPermuted(containers, counted, visited);
    forall order | Enumerates(order, containers)
      ensures multiset(names) == multiset(Names(Visited(containers, order)))
    {
      VisitedPermuted(containers, visited, order);
      NamesIgnoreOrder(Visited(containers, visited), Visited(containers, order));
    }
  }

  lemma SharedPermuted(containers: map<string, Info>, a: seq<string>, b: seq<string>)
    requires Enumerates(a, containers) && Enumerates(b, containers)
    ensures Shared(Visited(containers, a)) == Shared(Visited(containers, b))
  {
    VisitedPermuted(containers, a, b);
    SharedIgnoresOrder(Visited(containers, a), Visited(containers, b));
  }
}
