/**
 * The bounded history of `saveHealthData`: each record is appended, and
 * once there are more than `Capacity` entries only the newest `Capacity`
 * are kept, oldest first.
 */
module History {
  import opened Interpreter

  const Capacity: nat := 2000

  /** The last `n` entries of `s` (all of them when there are at most `n`). */
  function LastEntries(s: seq<HealthRecord>, n: nat): seq<HealthRecord> {
    if |s| > n then s[|s| - n..] else s
  }

  /** The history after `saveHealthData(r)`. */
  function Saved(history: seq<HealthRecord>, r: HealthRecord): seq<HealthRecord> {
    LastEntries(history + [r], Capacity)
  }

  /** The history after saving each of `rs` in turn. */
  function SaveAll(history: seq<HealthRecord>, rs: seq<HealthRecord>): seq<HealthRecord>
    decreases |rs|
  {
    if rs == [] then history else SaveAll(Saved(history, rs[0]), rs[1..])
  }

  /**
   * The `for` loop of `saveHealthData` that copies the newest `Capacity`
   * entries into a fresh array once the history has grown past it.
   */
  method TrimHistory(h: seq<HealthRecord>) returns (t: seq<HealthRecord>)
    ensures |t| == if |h| > Capacity then Capacity else |h|
    ensures t == h[|h| - |t|..]
  {
    if |h| > Capacity {
      t := [];
      for i := |h| - Capacity to |h|
        invariant t == h[|h| - Capacity..i]
      {
        t := t + [h[i]];
      }
    } else {
      t := h;
    }
  }

  /** One save keeps the record as the newest entry, keeps the order, and never exceeds the capacity. */
  lemma SavedKeepsNewest(history: seq<HealthRecord>, r: HealthRecord)
    ensures var t := Saved(history, r);
      |t| == (if |history| + 1 > Capacity then Capacity else |history| + 1)
      && t[|t| - 1] == r
      && t == (history + [r])[|history| + 1 - |t|..]
  {
  }

  /** Trimming before or after an append comes to the same thing. */
  lemma LastEntriesAppend(s: seq<HealthRecord>, x: HealthRecord, n: nat)
    ensures LastEntries(LastEntries(s, n) + [x], n) == LastEntries(s + [x], n)
  {
    if |s| > n {
      var k := |s| - n;
      assert s[k..] + [x] == (s + [x])[k..];
      if n > 0 {
        assert (s[k..] + [x])[1..] == (s + [x])[k + 1..];
      } else {
        assert (s[k..] + [x])[1..] == [];
      }
    }
  }

  /**
   * Saving records one by one keeps exactly the newest `Capacity` of
   * everything ever saved, in order (a stored history longer than that is
   * cut down by the first save).
   */
  lemma {:induction false} SaveAllKeepsNewest(history: seq<HealthRecord>, rs: seq<HealthRecord>)
    requires rs != [] || |history| <= Capacity
    ensures SaveAll(history, rs) == LastEntries(history + rs, Capacity)
    decreases |rs|
  {
    if rs == [] {
      assert history + rs == history;
    } else {
      SaveAllKeepsNewest(Saved(history, rs[0]), rs[1..]);
      calc {
        SaveAll(history, rs);
        LastEntries(Saved(history, rs[0]) + rs[1..], Capacity);
        { LastEntriesPrepended(history + [rs[0]], rs[1..], Capacity); }
        LastEntries(history + [rs[0]] + rs[1..], Capacity);
        { assert history + [rs[0]] + rs[1..] == history + rs; }
        LastEntries(history + rs, Capacity);
      }
    }
  }

  /** Trimming a prefix before appending a whole batch comes to the same thing. */
  lemma {:induction false} LastEntriesPrepended(s: seq<HealthRecord>, more: seq<HealthRecord>, n: nat)
    ensures LastEntries(LastEntries(s, n) + more, n) == LastEntries(s + more, n)
  {
    if |s| > n {
      var k := |s| - n;
      var a := s[k..] + more;
      var b := s + more;
      assert a == b[k..];
      if |a| > n {
        assert a[|a| - n..] == b[|b| - n..];
      } else {
        assert |b| > n || |b| == |s| + |more|;
      }
    }
  }

  /** After more than `Capacity` saves into an empty history, exactly the newest `Capacity` remain. */
  lemma OverflowEvictsOldest(rs: seq<HealthRecord>)
    requires |rs| > Capacity
    ensures SaveAll([], rs) == rs[|rs| - Capacity..]
    ensures |SaveAll([], rs)| == Capacity && SaveAll([], rs)[Capacity - 1] == rs[|rs| - 1]
  {
    SaveAllKeepsNewest([], rs);
    assert [] + rs == rs;
  }
}
