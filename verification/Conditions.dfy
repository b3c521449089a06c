/** Status conditions: a list keyed by type, edited in place by `SetStatusCondition`. */
module Conditions {
  import opened Redis
  import opened ModelSpecs

  datatype Kind = Available | Progressing | Degraded | Foreign(name: string)

  datatype Truth = Yes | No | Unsure

  /** Why a child could not be reconciled. */
  datatype ChildError = NoControllerOwner | OwnedByOther(owner: string) | ServerError

  /** Messages, by what they are formatted from. */
  datatype Message =
    | Text(text: string)
    | Waiting(ready: int, desired: int)
    | SpecProblem(specError: SpecError)
    | ChildProblem(childError: ChildError)

  /** What the controller says about one condition. */
  datatype Cell = Cell(status: Truth, reason: string, message: Message)

  datatype Condition = Condition(kind: Kind, cell: Cell, observedGeneration: int, since: int)

  /** An existing condition keeps its transition time unless its status changes. */
  function Merged(was: Condition, c: Condition): Condition {
    if was.cell.status == c.cell.status then c.(since := was.since) else c
  }

  /** `SetStatusCondition`: update the first condition of that type, or append one. */
  function SetCondition(cs: seq<Condition>, c: Condition): seq<Condition> {
    if cs == [] then [c]
    else if cs[0].kind == c.kind then [Merged(cs[0], c)] + cs[1..]
    else [cs[0]] + SetCondition(cs[1..], c)
  }

  function Find(cs: seq<Condition>, kind: Kind): Option<Condition> {
    if cs == [] then None else if cs[0].kind == kind then Some(cs[0]) else Find(cs[1..], kind)
  }

  /** The server keys the list by type, so it holds at most one of each. */
  predicate Keyed(cs: seq<Condition>) {
    forall i, j :: 0 <= i < j < |cs| ==> cs[i].kind != cs[j].kind
  }

  /** The entry at i is the first of its type, or there is none. */
  lemma {:induction false} SetConditionAt(cs: seq<Condition>, c: Condition, i: nat)
    requires i <= |cs| && (forall j :: 0 <= j < i ==> cs[j].kind != c.kind) && (i < |cs| ==> cs[i].kind == c.kind)
    ensures SetCondition(cs, c) == if i == |cs| then cs + [c] else cs[i := Merged(cs[i], c)]
  {
    hide Merged;
    if i > 0 {
      var rest := cs[1..];
      SetConditionAt(rest, c, i - 1);
      assert cs == [cs[0]] + rest;
    } else if cs != [] {
      assert cs[0 := Merged(cs[0], c)] == [Merged(cs[0], c)] + cs[1..];
    }
  }

  method SetStatusCondition(cs: seq<Condition>, c: Condition) returns (r: seq<Condition>)
    ensures r == SetCondition(cs, c)
    // The transition time moves exactly if the status changes; conditions of other types stay.
    ensures var was := Find(cs, c.kind);
      Find(r, c.kind) ==
        if was.Some? && was.value.cell.status == c.cell.status then Some(c.(since := was.value.since)) else Some(c)
    ensures forall kind :: kind != c.kind ==> Find(r, kind) == Find(cs, kind)
    ensures |r| == if Find(cs, c.kind).Some? then |cs| else |cs| + 1
  {
    hide SetCondition, Find;
    SetFinds(cs, c);
    var i := 0;
    while i < |cs| && cs[i].kind != c.kind
      invariant 0 <= i <= |cs|
      invariant forall j :: 0 <= j < i ==> cs[j].kind != c.kind
    {
      i := i + 1;
    }
    SetConditionAt(cs, c, i);
    if i == |cs| { return cs + [c]; }
    var updated := c;
    if cs[i].cell.status == c.cell.status {
      updated := c.(since := cs[i].since);
    }
    r := cs[i := updated];
  }

  lemma {:induction false} FindSet(cs: seq<Condition>, c: Condition, kind: Kind)
    ensures kind != c.kind ==> Find(SetCondition(cs, c), kind) == Find(cs, kind)
    ensures var found := Find(SetCondition(cs, c), c.kind);
      found.Some? && found.value == (if Find(cs, c.kind).None? then c else Merged(Find(cs, c.kind).value, c))
  {
    if cs != [] && cs[0].kind != c.kind {
      FindSet(cs[1..], c, kind);
      assert ([cs[0]] + SetCondition(cs[1..], c))[1..] == SetCondition(cs[1..], c);
    } else if cs != [] {
      assert ([Merged(cs[0], c)] + cs[1..])[1..] == cs[1..];
    }
  }

  lemma SetFinds(cs: seq<Condition>, c: Condition)
    ensures var was := Find(cs, c.kind);
      Find(SetCondition(cs, c), c.kind) ==
        if was.Some? && was.value.cell.status == c.cell.status then Some(c.(since := was.value.since)) else Some(c)
    ensures forall kind :: kind != c.kind ==> Find(SetCondition(cs, c), kind) == Find(cs, kind)
    ensures |SetCondition(cs, c)| == if Find(cs, c.kind).Some? then |cs| else |cs| + 1
  {
    hide Find, SetCondition;
    FindSet(cs, c, c.kind);
    forall kind | kind != c.kind ensures Find(SetCondition(cs, c), kind) == Find(cs, kind) { FindSet(cs, c, kind); }
    SetLength(cs, c);
  }

  lemma {:induction false} SetLength(cs: seq<Condition>, c: Condition)
    ensures |SetCondition(cs, c)| == if Find(cs, c.kind).Some? then |cs| else |cs| + 1
  {
    if cs != [] && cs[0].kind != c.kind { SetLength(cs[1..], c); }
  }

  lemma {:induction false} FindNone(cs: seq<Condition>, kind: Kind)
    ensures Find(cs, kind).None? <==> forall i :: 0 <= i < |cs| ==> cs[i].kind != kind
    ensures Find(cs, kind).Some? ==> Find(cs, kind).value in cs && Find(cs, kind).value.kind == kind
  {
    if cs != [] {
      FindNone(cs[1..], kind);
      assert cs == [cs[0]] + cs[1..];
    }
  }

  lemma KeyedCons(x: Condition, cs: seq<Condition>)
    ensures Keyed([x] + cs) <==> Keyed(cs) && Find(cs, x.kind).None?
  {
    FindNone(cs, x.kind);
    var all := [x] + cs;
    if Keyed(all) {
      forall i | 0 <= i < |cs| ensures cs[i].kind != x.kind { assert all[i + 1] == cs[i] && all[0] == x; }
      forall i, j | 0 <= i < j < |cs| ensures cs[i].kind != cs[j].kind {
        assert all[i + 1] == cs[i] && all[j + 1] == cs[j];
      }
    }
  }

  lemma {:induction false} KeyedSet(cs: seq<Condition>, c: Condition)
    requires Keyed(cs)
    ensures Keyed(SetCondition(cs, c))
  {
    if cs != [] {
      assert cs == [cs[0]] + cs[1..];
      KeyedCons(cs[0], cs[1..]);
      if cs[0].kind == c.kind {
        KeyedCons(Merged(cs[0], c), cs[1..]);
      } else {
        KeyedSet(cs[1..], c);
        FindSet(cs[1..], c, cs[0].kind);
        KeyedCons(cs[0], SetCondition(cs[1..], c));
      }
    }
  }

  /** Setting what is already there, transition time aside, changes nothing. */
  lemma {:induction false} SetAgain(cs: seq<Condition>, c: Condition)
    requires Find(cs, c.kind).Some? && Find(cs, c.kind).value == c.(since := Find(cs, c.kind).value.since)
    ensures SetCondition(cs, c) == cs
  {
    assert cs == [cs[0]] + cs[1..];
    if cs[0].kind != c.kind {
      SetAgain(cs[1..], c);
    }
  }

  // ---------------------------------------------------------------- the three conditions together

  /** What one reconcile pass reports. */
  datatype Report = Report(available: Cell, progressing: Cell, degraded: Cell) {
    /** Progress is reported exactly while nothing else is. */
    predicate Consistent() {
      progressing.status == Yes <==> available.status == No && degraded.status == No
    }
  }

  function Reported(cs: seq<Condition>, generation: int, report: Report, now: int): seq<Condition> {
    var cs1 := SetCondition(cs, Condition(Available, report.available, generation, now));
    var cs2 := SetCondition(cs1, Condition(Progressing, report.progressing, generation, now));
    SetCondition(cs2, Condition(Degraded, report.degraded, generation, now))
  }

  /** Each type says what the report says, at the current generation. */
  ghost predicate Says(cs: seq<Condition>, kind: Kind, cell: Cell, generation: int) {
    var c := Find(cs, kind);
    c.Some? && c.value.kind == kind && c.value.cell == cell && c.value.observedGeneration == generation
  }

  ghost predicate Reflects(cs: seq<Condition>, generation: int, report: Report) {
    && Says(cs, Available, report.available, generation)
    && Says(cs, Progressing, report.progressing, generation)
    && Says(cs, Degraded, report.degraded, generation)
  }

  /** One condition of each type, as reported, and conditions of other types left alone. */
  lemma ReportedReflects(cs: seq<Condition>, generation: int, report: Report, now: int)
    ensures Reflects(Reported(cs, generation, report, now), generation, report)
    ensures Keyed(cs) ==> Keyed(Reported(cs, generation, report, now))
    ensures forall name :: Find(Reported(cs, generation, report, now), Foreign(name)) == Find(cs, Foreign(name))
  {
    hide SetCondition, Find, Keyed;
    var a := Condition(Available, report.available, generation, now);
    var p := Condition(Progressing, report.progressing, generation, now);
    var d := Condition(Degraded, report.degraded, generation, now);
    var cs1 := SetCondition(cs, a);
    var cs2 := SetCondition(cs1, p);
    if Keyed(cs) { KeyedSet(cs, a); KeyedSet(cs1, p); KeyedSet(cs2, d); }
    FindSet(cs, a, Available);
    FindSet(cs1, p, Available);
    FindSet(cs2, d, Available);
    FindSet(cs1, p, Progressing);
    FindSet(cs2, d, Progressing);
    FindSet(cs2, d, Degraded);
    FindKind(cs, Available); FindKind(cs1, Progressing); FindKind(cs2, Degraded);
    forall name ensures Find(SetCondition(cs2, d), Foreign(name)) == Find(cs, Foreign(name)) {
      FindSet(cs, a, Foreign(name));
      FindSet(cs1, p, Foreign(name));
      FindSet(cs2, d, Foreign(name));
    }
  }

  /** A condition of this type whose status stays keeps its transition time; otherwise that is now. */
  ghost predicate Moved(cs: seq<Condition>, cs': seq<Condition>, kind: Kind, now: int) {
    var was, c := Find(cs, kind), Find(cs', kind);
    c.Some? && c.value.since ==
      if was.Some? && was.value.cell.status == c.value.cell.status then was.value.since else now
  }

  lemma ReportedMoves(cs: seq<Condition>, generation: int, report: Report, now: int)
    ensures var cs' := Reported(cs, generation, report, now);
      Moved(cs, cs', Available, now) && Moved(cs, cs', Progressing, now) && Moved(cs, cs', Degraded, now)
  {
    hide SetCondition, Find;
    var a := Condition(Available, report.available, generation, now);
    var p := Condition(Progressing, report.progressing, generation, now);
    var d := Condition(Degraded, report.degraded, generation, now);
    SetFinds(cs, a);
    SetFinds(SetCondition(cs, a), p);
    SetFinds(SetCondition(SetCondition(cs, a), p), d);
  }

  lemma FindKind(cs: seq<Condition>, kind: Kind)
    ensures Find(cs, kind).Some? ==> Find(cs, kind).value.kind == kind
  {
    FindNone(cs, kind);
  }

  /** Reporting the same again, at any time, changes nothing. */
  lemma ReportAgain(cs: seq<Condition>, generation: int, report: Report, now: int)
    requires Reflects(cs, generation, report)
    ensures Reported(cs, generation, report, now) == cs
  {
    hide SetCondition, Find;
    SetAgain(cs, Condition(Available, report.available, generation, now));
    SetAgain(cs, Condition(Progressing, report.progressing, generation, now));
    SetAgain(cs, Condition(Degraded, report.degraded, generation, now));
  }
}
