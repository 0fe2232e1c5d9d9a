/**
 Merging partial ThinQ reports into a cached dryer state (src/thinq/thinq-state-merge.ts:7-25).
 An object is the map of its entries; spreading one object over another is map union.
 */
module ThinqMerge {
  import opened Options

  /** A JSON value as far as the readers of a dryer state tell values apart. */
  datatype Json = Text(text: string) | Integer(n: int) | OtherJson

  type Entries = map<string, Json>

  /** A report's `runState` or `timer`: absent or falsy, some truthy non-object, an object or an array. */
  datatype Part = Absent | Malformed | Object(entries: Entries) | Array(items: seq<Json>)

  function IndexKey(i: nat): (key: string)
    ensures |key| >= 1
  {
    if i < 10 then ["0123456789"[i]] else IndexKey(i / 10) + ["0123456789"[i % 10]]
  }

  lemma {:induction false} IndexKeysDiffer(i: nat, j: nat)
    requires IndexKey(i) == IndexKey(j)
    ensures i == j
  {
    var digits := "0123456789";
    assert forall a, b :: 0 <= a < 10 && 0 <= b < 10 && digits[a] == digits[b] ==> a == b;
    assert |IndexKey(i)| == 1 <==> i < 10 by { if i >= 10 { assert |IndexKey(i / 10)| >= 1; } }
    assert |IndexKey(j)| == 1 <==> j < 10 by { if j >= 10 { assert |IndexKey(j / 10)| >= 1; } }
    var last := |IndexKey(i)| - 1;
    assert IndexKey(i)[last] == digits[i % 10] && IndexKey(j)[last] == digits[j % 10];
    if i >= 10 {
      assert IndexKey(i)[..last] == IndexKey(i / 10) && IndexKey(j)[..last] == IndexKey(j / 10);
      IndexKeysDiffer(i / 10, j / 10);
    }
  }

  /** What spreading an array yields: its items under their indices. */
  function ArrayEntries(items: seq<Json>): Entries {
    if items == [] then map[]
    else ArrayEntries(items[..|items| - 1])[IndexKey(|items| - 1) := items[|items| - 1]]
  }

  /** Every item of a spread array is found under its own index. */
  lemma {:induction false} ArrayItemsKept(items: seq<Json>, k: nat)
    requires k < |items|
    ensures IndexKey(k) in ArrayEntries(items) && ArrayEntries(items)[IndexKey(k)] == items[k]
  {
    if k < |items| - 1 {
      ArrayItemsKept(items[..|items| - 1], k);
      if IndexKey(k) == IndexKey(|items| - 1) { IndexKeysDiffer(k, |items| - 1); }
    }
  }

  /** The entries that a part contributes, if it contributes any. */
  function Spread(part: Part): Option<Entries> {
    match part
    case Object(entries) => Some(entries)
    case Array(items) => Some(ArrayEntries(items))
    case _ => None
  }

  /** What arrives: nothing usable (null, undefined, a non-object, an array), or an object. */
  datatype Incoming = Unusable | Report(runState: Part, timer: Part)

  /** A cached state; merging never stores anything but objects. */
  datatype DryerState = DryerState(runState: Option<Entries>, timer: Option<Entries>)

  const EMPTY := DryerState(None, None)

  function MergePart(previous: Option<Entries>, part: Part): Option<Entries> {
    if Spread(part).Some? then Some((if previous.Some? then previous.value else map[]) + Spread(part).value) else previous
  }

  function Merge(previous: Option<DryerState>, report: Incoming): DryerState {
    var base := if previous.Some? then previous.value else EMPTY;
    match report
    case Unusable => base
    case Report(runState, timer) => DryerState(MergePart(base.runState, runState), MergePart(base.timer, timer))
  }

  // ----- The algebra -----

  function AsPart(part: Option<Entries>): Part {
    if part.Some? then Object(part.value) else Absent
  }

  /** A well-formed report is itself a state. */
  function AsReport(state: DryerState): Incoming { Report(AsPart(state.runState), AsPart(state.timer)) }

  function Override(a: DryerState, b: DryerState): DryerState { Merge(Some(a), AsReport(b)) }

  /** The well-formed content of any incoming report: malformed parts count as absent. */
  function Content(report: Incoming): DryerState {
    match report
    case Unusable => EMPTY
    case Report(runState, timer) =>
      DryerState(Spread(runState), Spread(timer))
  }

  function Fold(start: DryerState, reports: seq<DryerState>): DryerState
    decreases reports
  {
    if reports == [] then start else Fold(Override(start, reports[0]), reports[1..])
  }

  datatype Field = RunStateField(key: string) | TimerField(key: string)

  function PartOf(state: DryerState, f: Field): Option<Entries> {
    if f.RunStateField? then state.runState else state.timer
  }

  function Value(state: DryerState, f: Field): Option<Json> {
    if PartOf(state, f).Some? && f.key in PartOf(state, f).value then Some(PartOf(state, f).value[f.key]) else None
  }

  /** `i` is the last report that mentions the field. */
  predicate LastMention(reports: seq<DryerState>, f: Field, i: int) {
    && 0 <= i < |reports| && Value(reports[i], f).Some?
    && forall k :: i < k < |reports| ==> Value(reports[k], f).None?
  }

  /** A malformed report, or a malformed part of one, changes nothing. */
  lemma MergeTakesContent(previous: Option<DryerState>, report: Incoming)
    ensures Merge(previous, report) == Override(if previous.Some? then previous.value else EMPTY, Content(report))
  {
  }

  /** Right-biased field override, with the empty report as identity. */
  lemma OverrideIsRightBiased(a: DryerState, b: DryerState, f: Field)
    ensures Value(Override(a, b), f) == if Value(b, f).Some? then Value(b, f) else Value(a, f)
    ensures Override(a, EMPTY) == a
    ensures Override(EMPTY, a) == a
  {
    assert a.runState.Some? ==> map[] + a.runState.value == a.runState.value;
    assert a.timer.Some? ==> map[] + a.timer.value == a.timer.value;
  }

  lemma OverrideAssociative(a: DryerState, b: DryerState, c: DryerState)
    ensures Override(Override(a, b), c) == Override(a, Override(b, c))
  {
    PartAssociative(a.runState, b.runState, c.runState);
    PartAssociative(a.timer, b.timer, c.timer);
  }

  lemma PartAssociative(a: Option<Entries>, b: Option<Entries>, c: Option<Entries>)
    ensures MergePart(MergePart(a, AsPart(b)), AsPart(c)) == MergePart(a, AsPart(MergePart(b, AsPart(c))))
  {
    var a' := if a.Some? then a.value else map[];
    if b.Some? && c.Some? {
      assert (a' + b.value) + c.value == a' + (b.value + c.value);
    } else if c.Some? {
      assert map[] + c.value == c.value;
    }
  }

  /** After any list of reports each field has its last reported value, or the one it started with. */
  lemma {:induction false} FoldKeepsLastMention(start: DryerState, reports: seq<DryerState>, f: Field)
    ensures forall i :: LastMention(reports, f, i) ==> Value(Fold(start, reports), f) == Value(reports[i], f)
    ensures (forall i :: 0 <= i < |reports| ==> Value(reports[i], f).None?) ==>
              Value(Fold(start, reports), f) == Value(start, f)
    decreases reports
  {
    if reports != [] {
      var next, rest := Override(start, reports[0]), reports[1..];
      FoldKeepsLastMention(next, rest, f);
      OverrideIsRightBiased(start, reports[0], f);
      hide Value, Override;
      forall i | LastMention(reports, f, i) ensures Value(Fold(start, reports), f) == Value(reports[i], f) {
        if i > 0 {
          assert LastMention(rest, f, i - 1);
        } else {
          assert forall k :: 0 <= k < |rest| ==> rest[k] == reports[k + 1];
        }
      }
    }
  }

  /** Folding from a state is overriding it with the reports' own fold. */
  lemma {:induction false} FoldFactors(start: DryerState, reports: seq<DryerState>)
    ensures Fold(start, reports) == Override(start, Fold(EMPTY, reports))
    decreases reports
  {
    hide Override;
    if reports == [] {
      OverrideIsRightBiased(start, EMPTY, TimerField(""));
    } else {
      FoldFactors(Override(start, reports[0]), reports[1..]);
      FoldFactors(Override(EMPTY, reports[0]), reports[1..]);
      OverrideIsRightBiased(reports[0], EMPTY, TimerField(""));
      OverrideAssociative(start, reports[0], Fold(EMPTY, reports[1..]));
    }
  }

  lemma {:induction false} FoldAppend(start: DryerState, first: seq<DryerState>, second: seq<DryerState>)
    ensures Fold(start, first + second) == Fold(Fold(start, first), second)
    decreases first
  {
    hide Override;
    if first == [] {
      assert first + second == second;
    } else {
      assert (first + second)[1..] == first[1..] + second;
      FoldAppend(Override(start, first[0]), first[1..], second);
    }
  }

  lemma FoldPush(start: DryerState, reports: seq<DryerState>, last: DryerState)
    ensures Fold(start, reports + [last]) == Override(Fold(start, reports), last)
  {
    FoldAppend(start, reports, [last]);
    assert Fold(Fold(start, reports), [last]) == Fold(Override(Fold(start, reports), last), []);
  }

  function Flatten(groups: seq<seq<DryerState>>): seq<DryerState> {
    if groups == [] then [] else groups[0] + Flatten(groups[1..])
  }

  /** One report per group. */
  function Compact(groups: seq<seq<DryerState>>): seq<DryerState> {
    if groups == [] then [] else [Fold(EMPTY, groups[0])] + Compact(groups[1..])
  }

  /** Any list of reports may be compacted in any grouping. */
  lemma {:induction false} CompactionIsHarmless(start: DryerState, groups: seq<seq<DryerState>>)
    ensures Fold(start, Flatten(groups)) == Fold(start, Compact(groups))
    decreases groups
  {
    hide Override;
    if groups != [] {
      FoldAppend(start, groups[0], Flatten(groups[1..]));
      FoldFactors(start, groups[0]);
      CompactionIsHarmless(Fold(start, groups[0]), groups[1..]);
      assert Compact(groups)[1..] == Compact(groups[1..]);
    }
  }
}
