/** The streaming label resolver of scripts/audit_candle_velocity_m15_h1.py: signals wait in a queue until
    their horizon has passed, and a gap in the rows throws the queue away. */
module LabelResolver {
  import opened Common
  import opened HourBars

  datatype Outcome = Continuation | Reversal | Sideways
  datatype Alignment = Aligned | Opposed | Flat

  /** What the velocity engine reports of an impulse; `threshold` is the sideways band. */
  datatype Impulse = Impulse(up: bool, wick: string, threshold: real)
  datatype Group = Group(up: bool, wick: string, alignment: Alignment)
  datatype Event = Event(target: nat, ts: int, up: bool, close: real, threshold: real, group: Group)

  /** The rows, the hourly bars, the engine as a function of the rows since the last gap, and the dates. */
  datatype World = World(rows: seq<Row>,
                         h1: seq<Bar>, probe: seq<Row> -> Option<Impulse>, start: int, end: int, holdout: int)

  // ---------------------------------------------------------------- signals

  /** Row k comes a quarter of an hour after the row before it. */
  predicate Joined(rows: seq<Row>, k: int)
    requires k < |rows|
  {
    0 < k && rows[k].ts - rows[k - 1].ts == 15
  }

  /** The first row of the unbroken stretch that row i belongs to. */
  function StretchStart(rows: seq<Row>, i: nat): (s: nat)
    requires i < |rows|
    ensures s <= i
  {
    if Joined(rows, i) then StretchStart(rows, i - 1) else i
  }

  function AlignmentOf(up: bool, bar: Bar): Alignment {
    if bar.close == bar.open then Flat else if up == (bar.close > bar.open) then Aligned else Opposed
  }

  /** The event that a stretch of rows ending at row i, and the hourly bar in use, give rise to. */
  function EventFrom(w: World, horizon: nat, i: nat, stretch: seq<Row>, context: Option<Bar>): Option<Event>
    requires i < |w.rows|
  {
    var row := w.rows[i];
    if !(w.start <= row.ts < w.end) then None
    else
      match (w.probe(stretch), context)
      case (Some(p), Some(bar)) =>
        Some(Event(i + horizon, row.ts, p.up, row.close, p.threshold, Group(p.up, p.wick, AlignmentOf(p.up, bar))))
      case _ => None
  }

  function EventAt(w: World, horizon: nat, i: nat): Option<Event>
    requires i < |w.rows|
  {
    EventFrom(w, horizon, i, w.rows[StretchStart(w.rows, i)..i + 1], Context(w.h1, w.rows[i].ts))
  }

  /** The check made when an event enters the queue. */
  predicate Admissible(rows: seq<Row>, horizon: nat, i: nat)
    requires i < |rows|
  {
    i + horizon < |rows| && rows[i + horizon].ts - rows[i].ts == 15 * horizon
  }

  // ---------------------------------------------------------------- tables of outcomes

  datatype Key = GroupKey(holdout: bool, group: Group) | DayKey(holdout: bool, day: int)
  datatype Tally = Tally(continuation: nat, reversal: nat, sideways: nat)

  function Get(t: Tally, o: Outcome): nat {
    match o case Continuation => t.continuation case Reversal => t.reversal case Sideways => t.sideways
  }

  function Inc(t: Tally, o: Outcome): (r: Tally)
    ensures forall p :: Get(r, p) == Get(t, p) + if p == o then 1 else 0
  {
    match o
    case Continuation => t.(continuation := t.continuation + 1)
    case Reversal => t.(reversal := t.reversal + 1)
    case Sideways => t.(sideways := t.sideways + 1)
  }

  /** A dictionary from keys to tallies, in insertion order. */
  type Table = seq<(Key, Tally)>

  /** `table.setdefault(key, empty_counts())[outcome] += 1` */
  function Bump(t: Table, key: Key, o: Outcome): Table {
    if t == [] then [(key, Inc(Tally(0, 0, 0), o))]
    else if t[0].0 == key then [(key, Inc(t[0].1, o))] + t[1..]
    else [t[0]] + Bump(t[1..], key, o)
  }

  function Lookup(t: Table, key: Key, o: Outcome): nat {
    if t == [] then 0 else if t[0].0 == key then Get(t[0].1, o) else Lookup(t[1..], key, o)
  }

  /** Sum of one outcome over all keys of one split. */
  function SplitSum(t: Table, holdout: bool, o: Outcome): nat {
    if t == [] then 0 else (if t[0].0.holdout == holdout then Get(t[0].1, o) else 0) + SplitSum(t[1..], holdout, o)
  }

  function Total(t: Table): nat {
    if t == [] then 0 else t[0].1.continuation + t[0].1.reversal + t[0].1.sideways + Total(t[1..])
  }

  lemma BumpStep(t: Table, key: Key, o: Outcome)
    requires t != []
    ensures var r := Bump(t, key, o);
            && r != [] && r[0].0 == t[0].0
            && r[0].1 == (if t[0].0 == key then Inc(t[0].1, o) else t[0].1)
            && r[1..] == if t[0].0 == key then t[1..] else Bump(t[1..], key, o)
  {
  }

  lemma BumpNew(key: Key, o: Outcome)
    ensures Bump([], key, o) == [(key, Inc(Tally(0, 0, 0), o))] && Bump([], key, o)[1..] == []
  {
  }

  lemma {:induction false} BumpTotal(t: Table, key: Key, o: Outcome)
    ensures Total(Bump(t, key, o)) == Total(t) + 1
  {
    hide Bump;
    if t == [] {
      BumpNew(key, o);
    } else {
      BumpStep(t, key, o);
      BumpTotal(t[1..], key, o);
    }
  }

  lemma {:induction false} BumpLookup(t: Table, key: Key, o: Outcome, k: Key, p: Outcome)
    ensures Lookup(Bump(t, key, o), k, p) == Lookup(t, k, p) + if k == key && p == o then 1 else 0
  {
    hide Bump;
    if t == [] {
      BumpNew(key, o);
    } else {
      BumpStep(t, key, o);
      BumpLookup(t[1..], key, o, k, p);
    }
  }

  lemma {:induction false} BumpSplit(t: Table, key: Key, o: Outcome, holdout: bool, p: Outcome)
    ensures SplitSum(Bump(t, key, o), holdout, p)
            == SplitSum(t, holdout, p) + if holdout == key.holdout && p == o then 1 else 0
  {
    hide Bump;
    if t == [] {
      BumpNew(key, o);
    } else {
      BumpStep(t, key, o);
      BumpSplit(t[1..], key, o, holdout, p);
    }
  }

  // ---------------------------------------------------------------- labels

  /** A resolved event: what is added to the tables. */
  datatype Label = Label(holdout: bool, group: Group, day: int, outcome: Outcome)

  function OutcomeOf(e: Event, close: real): Outcome {
    var move := if e.up then close - e.close else e.close - close;
    if move > e.threshold then Continuation else if move < -e.threshold then Reversal else Sideways
  }

  function LabelOf(w: World, e: Event, close: real): Label {
    Label(e.ts >= w.holdout, e.group, e.ts / 1440, OutcomeOf(e, close))
  }

  function GroupKeyOf(l: Label): Key { GroupKey(l.holdout, l.group) }
  function DayKeyOf(l: Label): Key { DayKey(l.holdout, l.day) }

  function Groups(labels: seq<Label>): Table {
    if labels == [] then []
    else Bump(Groups(labels[..|labels| - 1]), GroupKeyOf(labels[|labels| - 1]), labels[|labels| - 1].outcome)
  }

  function Days(labels: seq<Label>): Table {
    if labels == [] then []
    else Bump(Days(labels[..|labels| - 1]), DayKeyOf(labels[|labels| - 1]), labels[|labels| - 1].outcome)
  }

  /** Rows i to i + horizon exist and have no gap between them. */
  ghost predicate Unbroken(rows: seq<Row>, horizon: nat, i: nat)
    requires i < |rows|
  {
    i + horizon < |rows| && forall k :: i < k <= i + horizon ==> Joined(rows, k)
  }

  /** Definition of the labels without a queue: one for each signal whose rows up to the horizon are unbroken. */
  ghost function Labels(w: World, horizon: nat, m: nat): seq<Label>
    requires m <= |w.rows|
  {
    if m == 0 then []
    else Labels(w, horizon, m - 1) + NewLabel(w, horizon, m - 1)
  }

  ghost function NewLabel(w: World, horizon: nat, j: nat): seq<Label>
    requires j < |w.rows|
  {
    if EventAt(w, horizon, j).Some? && Unbroken(w.rows, horizon, j)
    then [LabelOf(w, EventAt(w, horizon, j).value, w.rows[j + horizon].close)]
    else []
  }

  /** Number of qualifying signals among the first m rows. */
  ghost function Signals(w: World, horizon: nat, m: nat): nat
    requires m <= |w.rows|
  {
    if m == 0 then 0 else Signals(w, horizon, m - 1) + if EventAt(w, horizon, m - 1).Some? then 1 else 0
  }

  // ---------------------------------------------------------------- the queue, one row at a time

  datatype Book = Book(pending: seq<Event>, groups: Table, days: Table, resolved: nat, excluded: nat)

  function Discard(b: Book): Book {
    b.(pending := [], excluded := b.excluded + |b.pending|)
  }

  /** One turn of the inner loop: the head leaves the queue. */
  function Pop(w: World, b: Book, i: nat, close: real): Book
    requires b.pending != []
  {
    var e, rest := b.pending[0], b.pending[1..];
    if e.target != i then b.(pending := rest, excluded := b.excluded + 1)
    else
      var l := LabelOf(w, e, close);
      b.(pending := rest, groups := Bump(b.groups, GroupKeyOf(l), l.outcome),
         days := Bump(b.days, DayKeyOf(l), l.outcome), resolved := b.resolved + 1)
  }

  function Due(w: World, b: Book, i: nat, close: real): Book
    decreases |b.pending|
  {
    if b.pending != [] && b.pending[0].target <= i then Due(w, Pop(w, b, i, close), i, close) else b
  }

  function Offer(rows: seq<Row>, horizon: nat, b: Book, i: nat, event: Option<Event>): Book
    requires i < |rows|
  {
    if event.None? then b
    else if Admissible(rows, horizon, i) then b.(pending := b.pending + [event.value])
    else b.(excluded := b.excluded + 1)
  }

  /** The first row is never after a gap. */
  predicate AfterGap(rows: seq<Row>, i: nat)
    requires i < |rows|
  {
    0 < i && !Joined(rows, i)
  }

  function AtGap(rows: seq<Row>, b: Book, i: nat): Book
    requires i < |rows|
  {
    if AfterGap(rows, i) then Discard(b) else b
  }

  /** Row i: drop the queue at a gap, resolve what is due, then admit a new event. */
  function OneRow(w: World, horizon: nat, b: Book, i: nat): Book
    requires i < |w.rows|
  {
    Offer(w.rows, horizon, Due(w, AtGap(w.rows, b, i), i, w.rows[i].close), i, EventAt(w, horizon, i))
  }

  const EMPTY := Book([], [], [], 0, 0)

  ghost function Replay(w: World, horizon: nat, m: nat): Book
    requires m <= |w.rows|
  {
    if m == 0 then EMPTY else OneRow(w, horizon, Replay(w, horizon, m - 1), m - 1)
  }

  /** What is still waiting after the last row is excluded. */
  function Finish(b: Book): Book {
    b.(excluded := b.excluded + |b.pending|)
  }

  // ---------------------------------------------------------------- what waits

  /** The admissible events of rows lo up to i, in order. */
  ghost function Waiting(w: World, horizon: nat, lo: nat, i: nat): (s: seq<Event>)
    requires i <= |w.rows|
    ensures forall k :: 0 <= k < |s| ==> lo + horizon <= s[k].target < i + horizon
  {
    if i <= lo then []
    else Waiting(w, horizon, lo, i - 1) + NewEvent(w, horizon, i - 1)
  }

  ghost function NewEvent(w: World, horizon: nat, j: nat): (s: seq<Event>)
    requires j < |w.rows|
    ensures forall k :: 0 <= k < |s| ==> s[k].target == j + horizon
  {
    if EventAt(w, horizon, j).Some? && Admissible(w.rows, horizon, j) then [EventAt(w, horizon, j).value] else []
  }

  lemma {:induction false} WaitingHead(w: World, horizon: nat, lo: nat, i: nat)
    requires lo < i <= |w.rows|
    ensures Waiting(w, horizon, lo, i) == NewEvent(w, horizon, lo) + Waiting(w, horizon, lo + 1, i)
  {
    hide NewEvent;
    if lo + 1 < i {
      WaitingHead(w, horizon, lo, i - 1);
    }
  }

  lemma {:induction false} StretchIff(rows: seq<Row>, a: nat, b: nat)
    requires a <= b < |rows|
    ensures StretchStart(rows, b) <= a <==> forall k :: a < k <= b ==> Joined(rows, k)
  {
    hide Joined;
    if a < b && Joined(rows, b) {
      StretchIff(rows, a, b - 1);
    }
  }

  lemma {:induction false} StretchLength(rows: seq<Row>, a: nat, b: nat)
    requires a <= b < |rows| && forall k :: a < k <= b ==> Joined(rows, k)
    ensures rows[b].ts - rows[a].ts == 15 * (b - a)
  {
    if a < b {
      StretchLength(rows, a, b - 1);
      assert Joined(rows, b);
    }
  }

  /** An unbroken horizon always passes the check at entry. */
  lemma UnbrokenIsAdmissible(rows: seq<Row>, horizon: nat, i: nat)
    requires i < |rows| && Unbroken(rows, horizon, i)
    ensures Admissible(rows, horizon, i)
  {
    StretchLength(rows, i, i + horizon);
  }

  ghost function Later(a: int, b: int): int { if a < b then b else a }

  /** First row whose event can still be waiting once row i has been looked at for a gap. */
  ghost function Oldest(rows: seq<Row>, horizon: nat, i: nat): (lo: nat)
    requires i < |rows|
    ensures i <= lo + horizon
  {
    Later(StretchStart(rows, i), i - horizon)
  }

  // ---------------------------------------------------------------- one row at a time

  /** Before row i (and any gap there) is handled: the queue and tables are those of the definition, and nothing is
      lost. */
  ghost predicate Tracks(w: World, horizon: nat, i: nat, lo: nat, b: Book)
    requires i <= |w.rows|
  {
    && b.pending == Waiting(w, horizon, lo, i)
    && Filed(w, horizon, Later(i - horizon, 0), b)
    && Conserved(w, horizon, i, b)
  }

  ghost predicate Filed(w: World, horizon: nat, m: nat, b: Book)
    requires m <= |w.rows|
  {
    var labels := Labels(w, horizon, m);
    b.groups == Groups(labels) && b.days == Days(labels) && b.resolved == |labels|
  }

  ghost predicate Conserved(w: World, horizon: nat, m: nat, b: Book)
    requires m <= |w.rows|
  {
    b.resolved + b.excluded + |b.pending| == Signals(w, horizon, m)
  }

  /** Where the queue starts when row i is about to be handled. */
  ghost function QueueStart(rows: seq<Row>, horizon: nat, i: nat): nat
    requires i <= |rows|
  {
    if i == 0 then 0 else Later(StretchStart(rows, i - 1), i - horizon)
  }

  lemma {:induction false} WaitingEmpty(w: World, horizon: nat, lo: nat, i: nat)
    requires i <= |w.rows| && i <= lo
    ensures Waiting(w, horizon, lo, i) == []
  {
  }

  lemma GapStep(w: World, horizon: nat, i: nat, b: Book)
    requires 0 < horizon && i < |w.rows| && Tracks(w, horizon, i, QueueStart(w.rows, horizon, i), b)
    ensures Tracks(w, horizon, i, Oldest(w.rows, horizon, i), AtGap(w.rows, b, i))
  {
    hide Filed;
    hide Conserved;
    var b' := AtGap(w.rows, b, i);
    if AfterGap(w.rows, i) {
      WaitingEmpty(w, horizon, i, i);
      FiledSame(w, horizon, Later(i - horizon, 0), b, b');
      DiscardConserves(w, horizon, i, b);
    } else if i > 0 {
      assert Oldest(w.rows, horizon, i) == QueueStart(w.rows, horizon, i);
    }
  }

  lemma FiledSame(w: World, horizon: nat, m: nat, b: Book, c: Book)
    requires m <= |w.rows| && Filed(w, horizon, m, b)
    requires b.groups == c.groups && b.days == c.days && b.resolved == c.resolved
    ensures Filed(w, horizon, m, c)
  {
  }

  lemma DiscardConserves(w: World, horizon: nat, i: nat, b: Book)
    requires i <= |w.rows| && Conserved(w, horizon, i, b)
    ensures Conserved(w, horizon, i, Discard(b)) && Conserved(w, horizon, i, Finish(b).(pending := []))
  {
  }

  lemma FileLabel(w: World, horizon: nat, m: nat, b: Book, i: nat, close: real)
    requires m < |w.rows| && Filed(w, horizon, m, b) && b.pending != [] && b.pending[0].target == i
    requires NewLabel(w, horizon, m) == [LabelOf(w, b.pending[0], close)]
    ensures Filed(w, horizon, m + 1, Pop(w, b, i, close))
  {
    hide LabelOf;
    hide NewLabel;
    hide Bump;
    var labels := Labels(w, horizon, m);
    var l := LabelOf(w, b.pending[0], close);
    assert Labels(w, horizon, m + 1) == labels + [l];
    assert (labels + [l])[..|labels|] == labels;
  }

  lemma PopConserves(w: World, horizon: nat, m: nat, b: Book, i: nat, close: real)
    requires m <= |w.rows| && Conserved(w, horizon, m, b) && b.pending != []
    ensures Conserved(w, horizon, m, Pop(w, b, i, close))
  {
    hide Bump;
    hide LabelOf;
  }

  /** The event `horizon` rows back is waiting exactly when its label is due by the definition. */
  lemma DueIsLabel(w: World, horizon: nat, i: nat)
    requires 0 < horizon <= i < |w.rows|
    ensures var j := i - horizon;
            if StretchStart(w.rows, i) <= j && NewEvent(w, horizon, j) != []
            then NewLabel(w, horizon, j) == [LabelOf(w, NewEvent(w, horizon, j)[0], w.rows[i].close)]
            else NewLabel(w, horizon, j) == []
  {
    hide EventAt;
    hide LabelOf;
    hide Joined;
    hide StretchStart;
    var j := i - horizon;
    StretchIff(w.rows, j, i);
    if Unbroken(w.rows, horizon, j) {
      UnbrokenIsAdmissible(w.rows, horizon, j);
    }
  }

  lemma DueOne(w: World, b: Book, i: nat, close: real)
    requires b.pending != [] && b.pending[0].target <= i
    requires |b.pending| > 1 ==> b.pending[1].target > i
    ensures Due(w, b, i, close) == Pop(w, b, i, close)
  {
  }

  lemma DueNone(w: World, b: Book, i: nat, close: real)
    requires b.pending != [] ==> b.pending[0].target > i
    ensures Due(w, b, i, close) == b
  {
  }

  lemma LabelsStep(w: World, horizon: nat, m: nat, b: Book)
    requires m < |w.rows| && Filed(w, horizon, m, b) && NewLabel(w, horizon, m) == []
    ensures Filed(w, horizon, m + 1, b)
  {
    hide NewLabel;
    assert Labels(w, horizon, m + 1) == Labels(w, horizon, m);
  }

  lemma DueStep(w: World, horizon: nat, i: nat, b: Book)
    requires 0 < horizon && i < |w.rows| && Tracks(w, horizon, i, Oldest(w.rows, horizon, i), b)
    ensures var d := Due(w, b, i, w.rows[i].close);
            && d.pending == Waiting(w, horizon, Later(StretchStart(w.rows, i), i + 1 - horizon), i)
            && Filed(w, horizon, Later(i + 1 - horizon, 0), d)
            && Conserved(w, horizon, i, d)
  {
    hide Filed;
    hide Conserved;
    hide NewEvent;
    hide NewLabel;
    hide Due;
    hide Waiting;
    hide Pop;
    hide StretchStart;
    var close, lo := w.rows[i].close, Oldest(w.rows, horizon, i);
    var j := i - horizon;
    if j < 0 || StretchStart(w.rows, i) > j {
      DueNone(w, b, i, close);
      if j >= 0 {
        DueIsLabel(w, horizon, i);
        LabelsStep(w, horizon, j, b);
      }
    } else {
      assert lo == j;
      DueIsLabel(w, horizon, i);
      WaitingHead(w, horizon, j, i);
      var rest := Waiting(w, horizon, j + 1, i);
      var head := NewEvent(w, horizon, j);
      if head == [] {
        assert b.pending == rest;
        DueNone(w, b, i, close);
        LabelsStep(w, horizon, j, b);
      } else {
        HeadSize(w, horizon, j);
        assert b.pending == [head[0]] + rest;
        DueOne(w, b, i, close);
        FileLabel(w, horizon, j, b, i, close);
        PopConserves(w, horizon, i, b, i, close);
        PopRest(w, b, i, close);
        assert b.pending[1..] == rest;
      }
    }
  }

  lemma HeadSize(w: World, horizon: nat, j: nat)
    requires j < |w.rows|
    ensures |NewEvent(w, horizon, j)| <= 1
  {
  }

  lemma PopRest(w: World, b: Book, i: nat, close: real)
    requires b.pending != []
    ensures Pop(w, b, i, close).pending == b.pending[1..]
  {
  }

  lemma OfferStep(w: World, horizon: nat, i: nat, lo: nat, m: nat, b: Book)
    requires i < |w.rows| && m <= |w.rows| && lo <= i && b.pending == Waiting(w, horizon, lo, i)
    requires Filed(w, horizon, m, b) && Conserved(w, horizon, i, b)
    ensures var c := Offer(w.rows, horizon, b, i, EventAt(w, horizon, i));
            && c.pending == Waiting(w, horizon, lo, i + 1)
            && Filed(w, horizon, m, c)
            && Conserved(w, horizon, i + 1, c)
  {
    hide EventAt;
    hide Admissible;
    hide Labels;
    hide Groups;
    hide Days;
  }

  lemma RowStep(w: World, horizon: nat, i: nat, b: Book)
    requires 0 < horizon && i < |w.rows| && Tracks(w, horizon, i, QueueStart(w.rows, horizon, i), b)
    ensures Tracks(w, horizon, i + 1, QueueStart(w.rows, horizon, i + 1), OneRow(w, horizon, b, i))
  {
    hide Due;
    hide Offer;
    hide AtGap;
    hide EventAt;
    hide Filed;
    hide Conserved;
    hide Waiting;
    hide StretchStart;
    GapStep(w, horizon, i, b);
    var g := AtGap(w.rows, b, i);
    DueStep(w, horizon, i, g);
    OfferStep(w, horizon, i, QueueStart(w.rows, horizon, i + 1), Later(i + 1 - horizon, 0),
      Due(w, g, i, w.rows[i].close));
  }

  /** The queue and the tables agree with the definition after every row. */
  lemma {:induction false} ReplayTracks(w: World, horizon: nat, i: nat)
    requires 0 < horizon && i <= |w.rows|
    ensures Tracks(w, horizon, i, QueueStart(w.rows, horizon, i), Replay(w, horizon, i))
  {
    hide Tracks;
    hide OneRow;
    hide QueueStart;
    if i == 0 {
      TracksNothing(w, horizon);
    } else {
      ReplayTracks(w, horizon, i - 1);
      RowStep(w, horizon, i - 1, Replay(w, horizon, i - 1));
    }
  }

  lemma TracksNothing(w: World, horizon: nat)
    ensures Tracks(w, horizon, 0, 0, EMPTY) && QueueStart(w.rows, horizon, 0) == 0
  {
  }

  // ---------------------------------------------------------------- what the report holds

  lemma {:induction false} NoLateLabels(w: World, horizon: nat, m: nat, n: nat)
    requires m <= n <= |w.rows| && |w.rows| <= m + horizon
    ensures Labels(w, horizon, n) == Labels(w, horizon, m)
  {
    hide NewLabel;
    if m < n {
      NoLateLabels(w, horizon, m, n - 1);
      TooLate(w, horizon, n - 1);
      assert Labels(w, horizon, n) == Labels(w, horizon, n - 1) + [];
    }
  }

  lemma TooLate(w: World, horizon: nat, j: nat)
    requires j < |w.rows| <= j + horizon
    ensures NewLabel(w, horizon, j) == []
  {
    hide EventAt;
  }

  /** A report that files exactly the labels of the definition and accounts for every signal. */
  ghost predicate Reports(w: World, horizon: nat, b: Book) {
    var labels := Labels(w, horizon, |w.rows|);
    && b.groups == Groups(labels) && b.days == Days(labels)
    && b.resolved == |labels| == Total(b.groups) == Total(b.days)
    && b.resolved + b.excluded == Signals(w, horizon, |w.rows|)
  }

  /** The streamed report meets the definition that has no queue. */
  lemma StreamMeetsDefinition(w: World, horizon: nat)
    requires 0 < horizon
    ensures Reports(w, horizon, Finish(Replay(w, horizon, |w.rows|)))
  {
    hide *;
    var n := |w.rows|;
    var b := Replay(w, horizon, n);
    ReplayTracks(w, horizon, n);
    FiledAtEnd(w, horizon, QueueStart(w.rows, horizon, n), b);
    ReportOf(w, horizon, b);
  }

  lemma FiledAtEnd(w: World, horizon: nat, lo: nat, b: Book)
    requires Tracks(w, horizon, |w.rows|, lo, b)
    ensures Filed(w, horizon, |w.rows|, b) && Conserved(w, horizon, |w.rows|, b)
  {
    hide Labels;
    hide Conserved;
    hide Waiting;
    hide Groups;
    hide Days;
    NoLateLabels(w, horizon, Later(|w.rows| - horizon, 0), |w.rows|);
  }

  lemma ReportOf(w: World, horizon: nat, b: Book)
    requires Filed(w, horizon, |w.rows|, b) && Conserved(w, horizon, |w.rows|, b)
    ensures Reports(w, horizon, Finish(b))
  {
    hide Labels;
    hide Signals;
    hide Groups;
    hide Days;
    hide Total;
    TablesTotal(Labels(w, horizon, |w.rows|));
  }

  ghost function CountKeyed(labels: seq<Label>, key: Key, o: Outcome): nat {
    if labels == [] then 0
    else
      var l := labels[|labels| - 1];
      CountKeyed(labels[..|labels| - 1], key, o)
      + if (key == GroupKeyOf(l) || key == DayKeyOf(l)) && o == l.outcome then 1 else 0
  }

  /** Each cell of either table counts its labels. */
  lemma {:induction false} TablesCount(labels: seq<Label>, key: Key, o: Outcome)
    ensures Lookup(if key.GroupKey? then Groups(labels) else Days(labels), key, o) == CountKeyed(labels, key, o)
  {
    if labels != [] {
      hide Bump;
      hide Lookup;
      var front, l := labels[..|labels| - 1], labels[|labels| - 1];
      TablesCount(front, key, o);
      BumpLookup(Groups(front), GroupKeyOf(l), l.outcome, key, o);
      BumpLookup(Days(front), DayKeyOf(l), l.outcome, key, o);
    }
  }

  /** Each table adds up to the labels. */
  lemma {:induction false} TablesTotal(labels: seq<Label>)
    ensures Total(Groups(labels)) == |labels| && Total(Days(labels)) == |labels|
  {
    if labels != [] {
      hide Bump;
      hide Total;
      var front, l := labels[..|labels| - 1], labels[|labels| - 1];
      TablesTotal(front);
      BumpTotal(Groups(front), GroupKeyOf(l), l.outcome);
      BumpTotal(Days(front), DayKeyOf(l), l.outcome);
    }
  }

  /** The table by group and the table by day agree on every outcome of either split. */
  lemma {:induction false} TablesCrossFoot(labels: seq<Label>, holdout: bool, o: Outcome)
    ensures SplitSum(Groups(labels), holdout, o) == SplitSum(Days(labels), holdout, o)
  {
    if labels != [] {
      hide Bump;
      hide SplitSum;
      var front, l := labels[..|labels| - 1], labels[|labels| - 1];
      TablesCrossFoot(front, holdout, o);
      BumpSplit(Groups(front), GroupKeyOf(l), l.outcome, holdout, o);
      BumpSplit(Days(front), DayKeyOf(l), l.outcome, holdout, o);
    }
  }

  /** When row i resolves what is due, nothing in the queue is already past its target, so the branch that
      excludes a stale event is never taken. */
  lemma NeverStale(w: World, horizon: nat, i: nat)
    requires 0 < horizon && i < |w.rows|
    ensures var b := AtGap(w.rows, Replay(w, horizon, i), i);
            forall k :: 0 <= k < |b.pending| ==> b.pending[k].target >= i
  {
    ReplayTracks(w, horizon, i);
    hide *;
    GapStep(w, horizon, i, Replay(w, horizon, i));
    QueueTargets(w, horizon, i, AtGap(w.rows, Replay(w, horizon, i), i));
  }

  lemma QueueTargets(w: World, horizon: nat, i: nat, b: Book)
    requires i < |w.rows| && Tracks(w, horizon, i, Oldest(w.rows, horizon, i), b)
    ensures forall k :: 0 <= k < |b.pending| ==> b.pending[k].target >= i
  {
    hide Waiting;
    hide Filed;
    hide Conserved;
    hide Oldest;
  }

  // ---------------------------------------------------------------- what becomes of an event in the queue

  /** What waits comes from an admissible signal of one of the rows. */
  lemma {:induction false} WaitingSource(w: World, horizon: nat, lo: nat, i: nat, k: nat) returns (j: nat)
    requires i <= |w.rows| && k < |Waiting(w, horizon, lo, i)|
    ensures lo <= j < i && NewEvent(w, horizon, j) == [Waiting(w, horizon, lo, i)[k]] && Admissible(w.rows, horizon, j)
    decreases i
  {
    hide EventAt;
    hide Admissible;
    if k < |Waiting(w, horizon, lo, i - 1)| {
      j := WaitingSource(w, horizon, lo, i - 1, k);
    } else {
      j := i - 1;
      NewEventAdmissible(w, horizon, j);
    }
  }

  lemma NewEventAdmissible(w: World, horizon: nat, j: nat)
    requires j < |w.rows| && NewEvent(w, horizon, j) != []
    ensures Admissible(w.rows, horizon, j) && EventAt(w, horizon, j).Some?
    ensures NewEvent(w, horizon, j) == [EventAt(w, horizon, j).value]
  {
    hide EventAt;
  }

  lemma {:induction false} WaitingHolds(w: World, horizon: nat, lo: nat, i: nat, j: nat)
    requires lo <= j < i <= |w.rows| && NewEvent(w, horizon, j) != []
    ensures NewEvent(w, horizon, j)[0] in Waiting(w, horizon, lo, i)
    decreases i
  {
    hide NewEvent;
    if j < i - 1 {
      WaitingHolds(w, horizon, lo, i - 1, j);
    }
  }

  lemma WaitingNotBefore(w: World, horizon: nat, lo: nat, i: nat, e: Event)
    requires i <= |w.rows| && e in Waiting(w, horizon, lo, i)
    ensures lo + horizon <= e.target < i + horizon
  {
    hide NewEvent;
    var k :| 0 <= k < |Waiting(w, horizon, lo, i)| && Waiting(w, horizon, lo, i)[k] == e;
  }

  /** The queue holds the event of row j before row i exactly when j is in the queue's range of rows. */
  lemma QueueHolds(w: World, horizon: nat, i: nat, lo: nat, b: Book, j: nat)
    requires i <= |w.rows| && Tracks(w, horizon, i, lo, b) && j < i && NewEvent(w, horizon, j) != []
    ensures NewEvent(w, horizon, j)[0] in b.pending <==> lo <= j
  {
    hide Waiting;
    hide NewEvent;
    hide Filed;
    hide Conserved;
    if lo <= j {
      WaitingHolds(w, horizon, lo, i, j);
    } else if NewEvent(w, horizon, j)[0] in b.pending {
      WaitingNotBefore(w, horizon, lo, i, NewEvent(w, horizon, j)[0]);
    }
  }

  /** Row i finds the event in the queue and a gap before it: the event is excluded there. */
  ghost predicate DroppedAt(w: World, horizon: nat, e: Event, i: nat) {
    0 < i < |w.rows| && AfterGap(w.rows, i) && e in Replay(w, horizon, i).pending
  }

  ghost function QueueBefore(w: World, horizon: nat, i: nat): seq<Event>
    requires i < |w.rows|
  {
    AtGap(w.rows, Replay(w, horizon, i), i).pending
  }

  lemma QueueRange(w: World, horizon: nat, j: nat, i: nat)
    requires 0 < horizon && j < |w.rows| && NewEvent(w, horizon, j) != [] && j < i <= j + horizon && i < |w.rows|
    ensures NewEvent(w, horizon, j)[0] in Replay(w, horizon, i).pending <==> StretchStart(w.rows, i - 1) <= j
    ensures NewEvent(w, horizon, j)[0] in QueueBefore(w, horizon, i) <==> StretchStart(w.rows, i) <= j
  {
    hide Tracks;
    hide NewEvent;
    hide Replay;
    hide AtGap;
    hide StretchStart;
    var b := Replay(w, horizon, i);
    ReplayTracks(w, horizon, i);
    QueueHolds(w, horizon, i, QueueStart(w.rows, horizon, i), b, j);
    GapStep(w, horizon, i, b);
    QueueHolds(w, horizon, i, Oldest(w.rows, horizon, i), AtGap(w.rows, b, i), j);
  }

  lemma FateWhole(w: World, horizon: nat, j: nat)
    requires 0 < horizon && j + horizon < |w.rows| && NewEvent(w, horizon, j) != []
    ensures NewEvent(w, horizon, j)[0] in Replay(w, horizon, j + 1).pending
    ensures Unbroken(w.rows, horizon, j) <==> NewEvent(w, horizon, j)[0] in QueueBefore(w, horizon, j + horizon)
  {
    hide Replay;
    hide NewEvent;
    hide QueueBefore;
    hide StretchStart;
    hide Joined;
    QueueRange(w, horizon, j, j + 1);
    QueueRange(w, horizon, j, j + horizon);
    StretchIff(w.rows, j, j + horizon);
  }

  lemma FateBroken(w: World, horizon: nat, j: nat) returns (i: nat)
    requires 0 < horizon && j + horizon < |w.rows| && NewEvent(w, horizon, j) != [] && !Unbroken(w.rows, horizon, j)
    ensures DroppedAt(w, horizon, NewEvent(w, horizon, j)[0], i)
  {
    hide Replay;
    hide NewEvent;
    hide QueueBefore;
    hide StretchStart;
    hide Joined;
    i := FirstGap(w.rows, j, j + horizon);
    StretchIff(w.rows, j, i - 1);
    QueueRange(w, horizon, j, i);
  }

  lemma DroppedIsBroken(w: World, horizon: nat, j: nat, e: Event, i: nat)
    requires 0 < horizon && j + horizon < |w.rows| && e.target == j + horizon && DroppedAt(w, horizon, e, i)
    ensures !Unbroken(w.rows, horizon, j)
  {
    DropIsBetween(w, horizon, e, i);
    hide Replay;
    hide Joined;
  }

  /** Every event that enters the queue is there after its own row. It is still there when its target row comes
      if and only if no gap lies between, and otherwise it is dropped at a gap. */
  lemma AdmittedFate(w: World, horizon: nat, j: nat)
    requires 0 < horizon && j < |w.rows| && EventAt(w, horizon, j).Some? && Admissible(w.rows, horizon, j)
    ensures var e := EventAt(w, horizon, j).value;
            && e in Replay(w, horizon, j + 1).pending
            && (Unbroken(w.rows, horizon, j) <==> e in QueueBefore(w, horizon, j + horizon))
            && (!Unbroken(w.rows, horizon, j) <==> exists i :: DroppedAt(w, horizon, e, i))
  {
    var e := EventAt(w, horizon, j).value;
    assert NewEvent(w, horizon, j) == [e] && j + horizon < |w.rows|;
    hide *;
    FateWhole(w, horizon, j);
    if !Unbroken(w.rows, horizon, j) {
      var i := FateBroken(w, horizon, j);
    }
    forall i | DroppedAt(w, horizon, e, i) ensures !Unbroken(w.rows, horizon, j) {
      DroppedIsBroken(w, horizon, j, e, i);
    }
  }

  lemma FirstGap(rows: seq<Row>, a: nat, b: nat) returns (i: nat)
    requires a < b < |rows| && !(forall k :: a < k <= b ==> Joined(rows, k))
    ensures a < i <= b && !Joined(rows, i) && forall k :: a < k < i ==> Joined(rows, k)
  {
    hide Joined;
    i := a + 1;
    while Joined(rows, i)
      invariant a < i <= b && forall k :: a < k < i ==> Joined(rows, k)
      decreases b - i
    {
      i := i + 1;
    }
  }

  lemma DropIsBetween(w: World, horizon: nat, e: Event, i: nat)
    requires 0 < horizon && DroppedAt(w, horizon, e, i)
    ensures i <= e.target < i + horizon
  {
    hide Waiting;
    hide Filed;
    hide Conserved;
    hide StretchStart;
    hide Replay;
    ReplayTracks(w, horizon, i);
    WaitingNotBefore(w, horizon, QueueStart(w.rows, horizon, i), i, e);
  }

  /** On the grid the check at entry and an unbroken horizon are the same. */
  lemma GridKeepsAdmitted(rows: seq<Row>, horizon: nat, i: nat)
    requires Increasing(rows) && OnGrid(rows) && i < |rows|
    ensures Admissible(rows, horizon, i) <==> Unbroken(rows, horizon, i)
  {
    if Unbroken(rows, horizon, i) {
      UnbrokenIsAdmissible(rows, horizon, i);
    }
    if Admissible(rows, horizon, i) {
      forall k | i < k <= i + horizon ensures Joined(rows, k) {
        GridSpread(rows, i, k - 1);
        GridSpread(rows, k, i + horizon);
        QuarterStep(rows[k - 1].ts, rows[k].ts);
      }
    }
  }

  /** Anything waiting before row i has its target at row i or later, comes from an earlier row, and was admissible. */
  lemma Queued(w: World, horizon: nat, i: nat, k: nat) returns (j: nat)
    requires 0 < horizon && i <= |w.rows| && k < |Replay(w, horizon, i).pending|
    ensures j < i <= j + horizon && Admissible(w.rows, horizon, j)
  {
    hide Waiting;
    hide Filed;
    hide Conserved;
    hide StretchStart;
    hide Replay;
    hide NewEvent;
    ReplayTracks(w, horizon, i);
    j := WaitingSource(w, horizon, QueueStart(w.rows, horizon, i), i, k);
  }

  /** On the quarter-hour grid the queue is empty at every gap, so no event in it is ever dropped there. */
  lemma GridQueueEmptyAtGap(w: World, horizon: nat, i: nat)
    requires 0 < horizon && i < |w.rows| && Increasing(w.rows) && OnGrid(w.rows) && AfterGap(w.rows, i)
    ensures Replay(w, horizon, i).pending == [] && AtGap(w.rows, Replay(w, horizon, i), i) == Replay(w, horizon, i)
  {
    hide Replay;
    hide Joined;
    if Replay(w, horizon, i).pending != [] {
      var j := Queued(w, horizon, i, 0);
      GridJoined(w.rows, horizon, j, i);
    }
  }

  lemma GridJoined(rows: seq<Row>, horizon: nat, j: nat, i: nat)
    requires Increasing(rows) && OnGrid(rows) && j < i <= j + horizon && i < |rows| && Admissible(rows, horizon, j)
    ensures Joined(rows, i)
  {
    GridKeepsAdmitted(rows, horizon, j);
  }

  /** On any rows the queue is empty after the last one, so the final exclusion adds nothing. */
  lemma TailQueueEmpty(w: World, horizon: nat)
    requires 0 < horizon
    ensures Replay(w, horizon, |w.rows|).pending == []
    ensures Finish(Replay(w, horizon, |w.rows|)) == Replay(w, horizon, |w.rows|)
  {
    hide Replay;
    if Replay(w, horizon, |w.rows|).pending != [] {
      var j := Queued(w, horizon, |w.rows|, 0);
    }
  }

  lemma {:induction false} GridSpread(rows: seq<Row>, a: nat, b: nat)
    requires Increasing(rows) && OnGrid(rows) && a <= b < |rows|
    ensures rows[b].ts - rows[a].ts >= 15 * (b - a)
  {
    if a < b {
      GridSpread(rows, a, b - 1);
      QuarterStep(rows[b - 1].ts, rows[b].ts);
    }
  }

  /** A row whose prices do not matter. */
  function Quote(ts: int): Row { Row(ts, 1.0, 1.0, 1.0, 1.0) }

  /** A complete hour, then rows at minutes 0, 10, 30 and 45; the engine reports an impulse on the fifth row of a
      stretch only. */
  ghost function OffGrid(): World {
    var rows := [Quote(-60), Quote(-45), Quote(-30), Quote(-15), Quote(0), Quote(10), Quote(30), Quote(45)];
    World(rows, [BarOf(-60, rows[..4])], FifthRow(), -60, 60, 60)
  }

  ghost function FifthRow(): seq<Row> -> Option<Impulse> {
    (s: seq<Row>) => if |s| == 5 then Some(Impulse(true, "BALANCED", 0.0)) else None
  }

  ghost predicate OffGridTimes(rows: seq<Row>) {
    && |rows| == 8 && rows[0].ts == -60 && rows[1].ts == -45 && rows[2].ts == -30 && rows[3].ts == -15
    && rows[4].ts == 0 && rows[5].ts == 10 && rows[6].ts == 30 && rows[7].ts == 45
  }

  lemma OffGridHours(rows: seq<Row>)
    requires OffGridTimes(rows)
    ensures Increasing(rows) && Bucket(rows, -60) == rows[..4]
    ensures forall hour :: CompleteHour(rows, hour) <==> hour == -60
  {
    BucketSplit(rows, 4, -60);
    BucketAll(rows[..4], -60);
    BucketNone(rows[4..], -60);
    forall hour | CompleteHour(rows, hour) ensures hour == -60 {
      var lo := CompleteRows(rows, hour);
    }
  }

  lemma OffGridRuns(w: World)
    requires w == OffGrid()
    ensures OffGridTimes(w.rows) && IsAggregation(w.rows, w.h1)
    ensures Context(w.h1, 0) == Some(w.h1[0]) && w.probe == FifthRow() && w.start == -60 && w.end == 60
  {
    OffGridHours(w.rows);
    assert w.h1[0].hour == -60;
    hide Bucket;
    hide BarOf;
  }

  lemma OffGridStretches(rows: seq<Row>)
    requires OffGridTimes(rows)
    ensures StretchStart(rows, 2) == 0 && StretchStart(rows, 3) == 0 && StretchStart(rows, 4) == 0
              && StretchStart(rows, 5) == 5
  {
    assert StretchStart(rows, 0) == 0 && StretchStart(rows, 1) == 0;
  }

  lemma OffGridEvents(w: World)
    requires w == OffGrid()
    ensures OffGridTimes(w.rows) && NewEvent(w, 3, 2) == [] && NewEvent(w, 3, 3) == [] && |NewEvent(w, 3, 4)| == 1
              && EventAt(w, 3, 5) == None
  {
    OffGridRuns(w);
    OffGridStretches(w.rows);
    hide OffGrid;
    hide Context;
    hide StretchStart;
    hide IsAggregation;
    assert |w.rows[0..3]| == 3 && |w.rows[0..4]| == 4 && |w.rows[0..5]| == 5 && |w.rows[5..6]| == 1;
  }

  /** Off the grid an event can enter the queue and then be lost: row 4 passes the check for horizon 3 because
      row 7 is 45 minutes later, and the gap before row 5 throws it away. */
  lemma AdmittedThenLost(w: World)
    requires w == OffGrid()
    ensures Increasing(w.rows) && IsAggregation(w.rows, w.h1) && |w.rows| == 8
    ensures |Replay(w, 3, 5).pending| == 1 && Replay(w, 3, 6).pending == []
    ensures Replay(w, 3, 6).excluded == Replay(w, 3, 5).excluded + 1
  {
    OffGridRuns(w);
    OffGridHours(w.rows);
    OffGridEvents(w);
    OffGridStretches(w.rows);
    var rows := w.rows;
    assert AfterGap(rows, 5);
    hide *;
    OffGridQueue(w, rows);
    var b := Replay(w, 3, 5);
    DueNone(w, Discard(b), 5, rows[5].close);
    LostStep(w, b);
  }

  lemma OffGridQueue(w: World, rows: seq<Row>)
    requires w.rows == rows && |rows| == 8 && StretchStart(rows, 4) == 0
    requires NewEvent(w, 3, 2) == [] && NewEvent(w, 3, 3) == [] && |NewEvent(w, 3, 4)| == 1
    ensures |Replay(w, 3, 5).pending| == 1
  {
    hide NewEvent;
    hide Replay;
    hide Filed;
    hide Conserved;
    ReplayTracks(w, 3, 5);
    assert QueueStart(rows, 3, 5) == 2;
    assert Waiting(w, 3, 2, 3) == [];
    assert Waiting(w, 3, 2, 4) == [];
  }

  lemma LostStep(w: World, b: Book)
    requires |w.rows| == 8 && AfterGap(w.rows, 5) && EventAt(w, 3, 5) == None && b == Replay(w, 3, 5)
    requires Due(w, Discard(b), 5, w.rows[5].close) == Discard(b)
    ensures Replay(w, 3, 6) == Discard(b)
  {
    hide EventAt;
    hide Due;
  }

  // ---------------------------------------------------------------- a prefix of the rows

  lemma {:induction false} StretchPrefix(rows: seq<Row>, m: nat, i: nat)
    requires i < m <= |rows|
    ensures StretchStart(rows[..m], i) == StretchStart(rows, i)
  {
    if Joined(rows, i) {
      StretchPrefix(rows, m, i - 1);
    }
  }

  /** The bar in use is settled by the hours that can be used. */
  lemma InUseUnique(rows: seq<Row>, part: seq<Row>, t: int, a: Option<Bar>, b: Option<Bar>)
    requires InUse(rows, t, a) && InUse(part, t, b)
    requires forall hour :: hour + 60 <= t + 15 ==> (CompleteHour(rows, hour) <==> CompleteHour(part, hour))
    requires forall hour :: hour + 60 <= t + 15 && CompleteHour(rows, hour) ==> Bucket(rows, hour) == Bucket(part, hour)
    ensures a == b
  {
    hide Bucket;
    hide Complete;
    hide BarOf;
    assert forall hour :: Usable(rows, t, hour) <==> Usable(part, t, hour);
  }

  /** For a row that is not the last of the prefix, the bar in use is the same with and without the rows after
      the prefix: a row that could undo its hour is already there. */
  lemma ContextPrefix(rows: seq<Row>, m: nat, i: nat, full: Option<Bar>, part: Option<Bar>)
    requires Increasing(rows) && i + 1 < m <= |rows|
    requires InUse(rows, rows[i].ts, full) && InUse(rows[..m], rows[i].ts, part)
    ensures full == part
  {
    hide InUse;
    hide CompleteHour;
    hide HourOf;
    hide Bucket;
    var t := rows[i].ts;
    assert rows[..m][..i + 1] == rows[..i + 1];
    forall hour | hour + 60 <= t + 15
      ensures CompleteHour(rows, hour) <==> CompleteHour(rows[..m], hour)
      ensures CompleteHour(rows, hour) ==> Bucket(rows, hour) == Bucket(rows[..m], hour)
    {
      HourUnchanged(rows, i, hour);
      HourUnchanged(rows[..m], i, hour);
    }
    InUseUnique(rows, rows[..m], t, full, part);
  }

  /** The same engine and dates over the first m rows only, with their own hourly bars. */
  ghost predicate Truncated(w: World, v: World, m: nat) {
    && m <= |w.rows| && v.rows == w.rows[..m] && v.probe == w.probe
    && v.start == w.start && v.end == w.end && v.holdout == w.holdout
    && Increasing(w.rows) && IsAggregation(w.rows, w.h1) && IsAggregation(v.rows, v.h1)
  }

  lemma EventPrefix(w: World, v: World, horizon: nat, m: nat, i: nat)
    requires Truncated(w, v, m) && i + 1 < m
    ensures EventAt(v, horizon, i) == EventAt(w, horizon, i)
  {
    hide IsAggregation;
    hide InUse;
    hide Context;
    hide StretchStart;
    hide EventFrom;
    var t := w.rows[i].ts;
    ContextInUse(w.rows, w.h1, t);
    ContextInUse(v.rows, v.h1, t);
    ContextPrefix(w.rows, m, i, Context(w.h1, t), Context(v.h1, t));
    StretchPrefix(w.rows, m, i);
    var lo := StretchStart(w.rows, i);
    assert v.rows[lo..i + 1] == w.rows[lo..i + 1];
    SameEvent(w, v, horizon, i, w.rows[lo..i + 1], Context(w.h1, t));
  }

  lemma SameEvent(w: World, v: World, horizon: nat, i: nat, stretch: seq<Row>, context: Option<Bar>)
    requires i < |w.rows| && i < |v.rows| && w.rows[i] == v.rows[i] && v.probe == w.probe
    requires v.start == w.start && v.end == w.end
    ensures EventFrom(v, horizon, i, stretch, context) == EventFrom(w, horizon, i, stretch, context)
  {
  }

  lemma LabelPrefix(w: World, v: World, horizon: nat, m: nat, j: nat)
    requires Truncated(w, v, m) && 0 < horizon && j + horizon < m
    ensures NewLabel(v, horizon, j) == NewLabel(w, horizon, j)
  {
    EventPrefix(w, v, horizon, m, j);
    TruncatedSizes(w, v, m);
    UnbrokenPrefix(w.rows, m, horizon, j);
    assert v.rows[j + horizon] == w.rows[j + horizon] && v.rows == w.rows[..m] && v.holdout == w.holdout;
    hide Truncated;
    hide EventAt;
    hide OutcomeOf;
    hide Unbroken;
  }

  lemma UnbrokenPrefix(rows: seq<Row>, m: nat, horizon: nat, j: nat)
    requires m <= |rows| && j + horizon < m
    ensures Unbroken(rows[..m], horizon, j) <==> Unbroken(rows, horizon, j)
  {
    assert forall k :: 0 <= k < m ==> (Joined(rows[..m], k) <==> Joined(rows, k));
  }

  lemma {:induction false} LabelsSame(w: World, v: World, horizon: nat, m: nat, n: nat)
    requires Truncated(w, v, m) && 0 < horizon && (n == 0 || n + horizon <= m)
    ensures n <= m && Labels(v, horizon, n) == Labels(w, horizon, n)
  {
    hide Truncated;
    hide NewLabel;
    TruncatedSizes(w, v, m);
    if n > 0 {
      LabelsSame(w, v, horizon, m, n - 1);
      LabelPrefix(w, v, horizon, m, n - 1);
    }
  }

  lemma TruncatedSizes(w: World, v: World, m: nat)
    requires Truncated(w, v, m)
    ensures |v.rows| == m <= |w.rows|
  {
  }

  lemma {:induction false} LabelsGrow(w: World, horizon: nat, a: nat, b: nat)
    requires a <= b <= |w.rows|
    ensures Labels(w, horizon, a) <= Labels(w, horizon, b)
  {
    hide NewLabel;
    if a < b {
      LabelsGrow(w, horizon, a, b - 1);
    }
  }

  /** What the first m rows resolve is never revised: it is a prefix of what any longer file resolves, on the
      grid or off it. */
  lemma PrefixResolvesPrefix(w: World, v: World, horizon: nat, m: nat)
    requires Truncated(w, v, m) && 0 < horizon
    ensures |v.rows| == m <= |w.rows| && Labels(v, horizon, m) <= Labels(w, horizon, |w.rows|)
  {
    hide Truncated;
    TruncatedSizes(w, v, m);
    var n: nat := Later(m - horizon, 0);
    LabelsSame(w, v, horizon, m, n);
    NoLateLabels(v, horizon, n, m);
    LabelsGrow(w, horizon, n, |w.rows|);
  }

  // ---------------------------------------------------------------- the program

  /** The queue and the tables of one horizon. */
  class HorizonBook {
    const horizon: nat
    var pending: seq<Event>
    var groups: Table
    var days: Table
    var resolved: nat
    var excluded: nat

    ghost function View(): Book
      reads this
    {
      Book(pending, groups, days, resolved, excluded)
    }

    constructor (horizon: nat)
      ensures this.horizon == horizon && View() == EMPTY
    {
      this.horizon := horizon;
      pending, groups, days, resolved, excluded := [], [], [], 0, 0;
    }

    method DropPending()
      modifies this
      ensures View() == Discard(old(View()))
    {
      excluded := excluded + |pending|;
      pending := [];
    }

    method ResolveDue(w: World, i: nat, close: real)
      modifies this
      ensures View() == Due(w, old(View()), i, close)
    {
      while pending != [] && pending[0].target <= i
        invariant Due(w, View(), i, close) == Due(w, old(View()), i, close)
        decreases |pending|
      {
        ghost var before := View();
        var e := pending[0];
        pending := pending[1..];
        if e.target != i {
          excluded := excluded + 1;
        } else {
          var l := LabelOf(w, e, close);
          groups := Bump(groups, GroupKeyOf(l), l.outcome);
          days := Bump(days, DayKeyOf(l), l.outcome);
          resolved := resolved + 1;
        }
        assert View() == Pop(w, before, i, close);
      }
    }

    method Consider(rows: seq<Row>, i: nat, event: Option<Event>)
      requires i < |rows|
      modifies this
      ensures View() == Offer(rows, horizon, old(View()), i, event)
    {
      if event.Some? {
        if Admissible(rows, horizon, i) {
          pending := pending + [event.value];
        } else {
          excluded := excluded + 1;
        }
      }
    }

    method CloseBook()
      modifies this
      ensures View() == Finish(old(View()))
    {
      excluded := excluded + |pending|;
    }

    method Report() returns (b: Book)
      ensures b == View()
    {
      b := Book(pending, groups, days, resolved, excluded);
    }

    /** One row for this horizon, given the rows since the last gap and the hourly bar in use. */
    method HandleRow(w: World, i: nat, stretch: seq<Row>, context: Option<Bar>)
      requires i < |w.rows| && stretch == StretchAt(w.rows, i) && context == Context(w.h1, w.rows[i].ts)
      modifies this
      ensures View() == OneRow(w, horizon, old(View()), i)
    {
      hide Due;
      hide EventFrom;
      if AfterGap(w.rows, i) {
        DropPending();
      }
      ResolveDue(w, i, w.rows[i].close);
      Consider(w.rows, i, EventFrom(w, horizon, i, stretch, context));
    }
  }

  /** The rows since the last gap, row i included. */
  function StretchAt(rows: seq<Row>, i: nat): seq<Row>
    requires i < |rows|
  {
    rows[StretchStart(rows, i)..i + 1]
  }

  lemma StretchGrows(rows: seq<Row>, i: nat)
    requires i < |rows|
    ensures StretchAt(rows, i) == (if i == 0 || AfterGap(rows, i) then [] else StretchAt(rows, i - 1)) + [rows[i]]
  {
  }

  lemma CursorIsContext(h1: seq<Bar>, cursor: int, t: int)
    requires cursor == Closed(h1, t) - 1
    ensures Context(h1, t) == if cursor >= 0 then Some(h1[cursor]) else None
  {
  }

  lemma CursorBehind(rows: seq<Row>, h1: seq<Bar>, i: nat)
    requires Increasing(rows) && IsAggregation(rows, h1) && 0 < i < |rows|
    ensures Closed(h1, rows[i - 1].ts) <= Closed(h1, rows[i].ts)
  {
    hide Closed;
    hide Built;
    hide CompleteHour;
    ClosedMonotone(h1, rows[i - 1].ts, rows[i].ts);
  }

  lemma AggregationRises(rows: seq<Row>, h1: seq<Bar>)
    requires IsAggregation(rows, h1)
    ensures Rising(h1)
  {
  }

  /** The whole pass: both horizons, the stretch since the last gap and the hourly cursor. */
  method RunAudit(rows: seq<Row>, probe: seq<Row> -> Option<Impulse>, start: int, end: int, holdout: int)
    returns (r: Result<(seq<Bar>, Book, Book), string>)
    requires Increasing(rows)
    ensures r.Err? <==> forall hour :: !CompleteHour(rows, hour)
    ensures r.Ok? ==>
              var w := World(rows, r.value.0, probe, start, end, holdout);
              && IsAggregation(rows, w.h1)
              && Reports(w, 3, r.value.1)
              && Reports(w, 5, r.value.2)
  {
    hide OneRow;
    hide CompleteHour;
    hide Finish;
    hide Increasing;
    hide IsAggregation;
    hide Rising;
    hide Closed;
    hide Context;
    hide StretchAt;
    hide AfterGap;
    hide Reports;
    var aggregated := AggregateH1(rows);
    if aggregated.Err? {
      return Err(aggregated.error);
    }
    var h1 := aggregated.value;
    AggregationRises(rows, h1);
    var w := World(rows, h1, probe, start, end, holdout);
    var three := new HorizonBook(3);
    var five := new HorizonBook(5);
    var cursor := -1;
    var stretch: seq<Row> := [];
    for i := 0 to |rows|
      invariant fresh(three) && fresh(five) && three != five && three.horizon == 3 && five.horizon == 5
      invariant three.View() == Replay(w, 3, i) && five.View() == Replay(w, 5, i)
      invariant stretch == if i == 0 then [] else StretchAt(rows, i - 1)
      invariant cursor == if i == 0 then -1 else Closed(h1, rows[i - 1].ts) - 1
    {
      StretchGrows(rows, i);
      if AfterGap(rows, i) {
        stretch := [];
      }
      stretch := stretch + [rows[i]];
      if i > 0 {
        CursorBehind(rows, h1, i);
      }
      cursor := AdvanceCursor(h1, cursor, rows[i].ts);
      CursorIsContext(h1, cursor, rows[i].ts);
      var context := if cursor >= 0 then Some(h1[cursor]) else None;
      three.HandleRow(w, i, stretch, context);
      five.HandleRow(w, i, stretch, context);
    }
    three.CloseBook();
    five.CloseBook();
    StreamMeetsDefinition(w, 3);
    StreamMeetsDefinition(w, 5);
    var a := three.Report();
    var b := five.Report();
    r := Ok((h1, a, b));
  }
}
