/** The controller's bookkeeping around the rounds: worker slots and the round counter (src/distributed/controller.py). */
module ControllerService {
  import opened Vectors

  // ---------------------------------------------------------------- slots

  function Names(calls: seq<string>): set<string> {
    set name | name in calls
  }

  /** The slots of one role after a series of registrations. */
  function SlotsAfter(limit: nat, calls: seq<string>): map<string, nat> {
    if |calls| == 0 then map[]
    else
      var before := SlotsAfter(limit, calls[..|calls| - 1]);
      var name := calls[|calls| - 1];
      if name in before || |before| >= limit then before else before[name := |before|]
  }

  class Slots {
    const limit: nat
    var slots: map<string, nat>
    ghost var calls: seq<string>

    ghost predicate Valid()
      reads this
    {
      slots == SlotsAfter(limit, calls)
    }

    constructor (limit: nat)
      ensures Valid() && this.limit == limit && calls == []
    {
      this.limit := limit;
      slots := map[];
      calls := [];
    }

    method Assign(name: string) returns (index: Option<nat>)
      requires Valid()
      modifies this
      ensures Valid() && calls == old(calls) + [name]
      ensures index == if name in slots then Some(slots[name]) else None
    {
      calls := calls + [name];
      assert calls[..|calls| - 1] == old(calls);
      if name !in slots {
        if |slots| >= limit {
          return None;
        }
        slots := slots[name := |slots|];
      }
      index := Some(slots[name]);
    }
  }

  lemma NamesNext(calls: seq<string>, name: string)
    ensures Names(calls + [name]) == Names(calls) + {name}
    ensures |Names(calls + [name])| == |Names(calls)| + if name in calls then 0 else 1
  {
    assert Names(calls + [name]) == Names(calls) + {name};
    if name in calls {
      assert Names(calls) + {name} == Names(calls);
    }
  }

  /** How many slots are taken: one per name ever seen, up to the limit. */
  lemma {:induction false} SlotCount(limit: nat, calls: seq<string>)
    ensures SlotsAfter(limit, calls).Keys <= Names(calls)
    ensures |SlotsAfter(limit, calls)| == if |Names(calls)| < limit then |Names(calls)| else limit
    ensures |Names(calls)| <= limit ==> SlotsAfter(limit, calls).Keys == Names(calls)
  {
    if |calls| > 0 {
      var before, name := calls[..|calls| - 1], calls[|calls| - 1];
      assert calls == before + [name];
      SlotCount(limit, before);
      NamesNext(before, name);
      Full(limit, before, name);
    }
  }

  /** A name that was seen but holds no slot came when there was none left. */
  lemma Full(limit: nat, before: seq<string>, name: string)
    requires |SlotsAfter(limit, before)| == if |Names(before)| < limit then |Names(before)| else limit
    requires |Names(before)| <= limit ==> SlotsAfter(limit, before).Keys == Names(before)
    ensures name in before && name !in SlotsAfter(limit, before) ==> |Names(before)| > limit
  {
    if name in before {
      assert name in Names(before);
    }
  }

  /**
   Whoever registers, in whatever order and however often: the k-th call, if it is the first under
   its name, gets the slot numbered by the distinct names before it, or none when `limit` of them
   came first; and that answer never changes afterwards.
   */
  lemma {:induction false} SlotIsArrivalRank(limit: nat, calls: seq<string>, k: nat)
    requires k < |calls| && calls[k] !in calls[..k]
    ensures calls[k] in SlotsAfter(limit, calls) <==> |Names(calls[..k])| < limit
    ensures calls[k] in SlotsAfter(limit, calls) ==> SlotsAfter(limit, calls)[calls[k]] == |Names(calls[..k])|
  {
    var before, name := calls[..|calls| - 1], calls[|calls| - 1];
    if k == |calls| - 1 {
      assert calls[..k] == before;
      SlotCount(limit, before);
      assert name !in Names(before);
    } else {
      assert before[..k] == calls[..k] && before[k] == calls[k];
      SlotIsArrivalRank(limit, before, k);
      SlotCount(limit, before);
      if calls[k] !in SlotsAfter(limit, before) && name == calls[k] {
        NamesGrow(before, k);
      }
    }
  }

  lemma NamesGrow(calls: seq<string>, k: nat)
    requires k <= |calls|
    ensures |Names(calls[..k])| <= |Names(calls)|
  {
    assert Names(calls[..k]) <= Names(calls);
    Subset(Names(calls[..k]), Names(calls));
  }

  lemma {:induction false} Subset(a: set<string>, b: set<string>)
    requires a <= b
    ensures |a| <= |b|
  {
    if a != {} {
      var x :| x in a;
      Subset(a - {x}, b - {x});
    }
  }

  /** Two workers never share a slot, and slots stay within the topology. */
  lemma {:induction false} SlotsDistinct(limit: nat, calls: seq<string>)
    ensures var s := SlotsAfter(limit, calls);
      && |s| <= limit
      && (forall a | a in s :: s[a] < |s|)
      && (forall a, b | a in s && b in s && s[a] == s[b] :: a == b)
  {
    if |calls| > 0 {
      SlotsDistinct(limit, calls[..|calls| - 1]);
    }
  }

  // ---------------------------------------------------------------- the round counter

  datatype Round = Skipped | Applied(now: real)

  /** The clock readings of the applied rounds. */
  function Readings(rounds: seq<Round>): Vec {
    if |rounds| == 0 then []
    else
      var last := rounds[|rounds| - 1];
      Readings(rounds[..|rounds| - 1]) + if last.Applied? then [last.now] else []
  }

  /** The reading before the k-th one. */
  function Previous(t0: real, readings: Vec, k: nat): real
    requires k <= |readings|
  {
    if k == 0 then t0 else readings[k - 1]
  }

  /** How many readings differ from the one before. */
  function Changes(t0: real, readings: Vec): nat {
    if |readings| == 0 then 0
    else
      var n := |readings| - 1;
      Changes(t0, readings[..n]) + if readings[n] != Previous(t0, readings, n) then 1 else 0
  }

  /** The loop's counter: a round counts when it returns a time other than the last one. */
  method CountRounds(t0: real, rounds: seq<Round>) returns (k: nat, last: real)
    ensures k == Changes(t0, Readings(rounds))
    ensures last == Previous(t0, Readings(rounds), |Readings(rounds)|)
  {
    k, last := 0, t0;
    for i := 0 to |rounds|
      invariant k == Changes(t0, Readings(rounds[..i]))
      invariant last == Previous(t0, Readings(rounds[..i]), |Readings(rounds[..i])|)
    {
      ghost var before := Readings(rounds[..i]);
      assert rounds[..i + 1][..i] == rounds[..i];
      var appliedAt := if rounds[i].Applied? then rounds[i].now else last;
      ghost var after := Readings(rounds[..i + 1]);
      if rounds[i].Applied? {
        assert after == before + [rounds[i].now] && after[..|before|] == before;
        assert Previous(t0, after, |before|) == last;
      } else {
        assert after == before;
      }
      if appliedAt != last {
        k, last := k + 1, appliedAt;
      }
    }
    assert rounds[..|rounds|] == rounds;
  }

  ghost predicate ClockMoves(t0: real, readings: Vec) {
    forall k :: 0 <= k < |readings| ==> readings[k] != Previous(t0, readings, k)
  }

  /** The counter is the number of applied rounds exactly when no applied round reads its predecessor's time. */
  lemma {:induction false} CountsAppliedRounds(t0: real, readings: Vec)
    ensures Changes(t0, readings) <= |readings|
    ensures Changes(t0, readings) == |readings| <==> ClockMoves(t0, readings)
  {
    if |readings| > 0 {
      var n := |readings| - 1;
      CountsAppliedRounds(t0, readings[..n]);
      assert forall k :: 0 <= k <= n ==> Previous(t0, readings[..n], k) == Previous(t0, readings, k);
    }
  }

  /** A clock that stands still hides an applied round: its step is taken and not counted. */
  lemma StillClockMiscounts()
    ensures Readings([Applied(1.0), Applied(1.0)]) == [1.0, 1.0]
    ensures Changes(0.0, [1.0, 1.0]) == 1
  {
    var rounds := [Applied(1.0), Applied(1.0)];
    assert rounds[..1] == [Applied(1.0)] && rounds[..1][..0] == [];
    assert [1.0, 1.0][..1] == [1.0] && [1.0][..0] == [];
    assert Readings(rounds[..1]) == [1.0];
    assert Changes(0.0, [1.0]) == 1;
  }
}
