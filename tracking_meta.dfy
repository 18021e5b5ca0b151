/** Shipkia_Tracking_Meta: the "Shipment Status" column of the WooCommerce orders list. */
module TrackingMeta {
  import opened Php
  import opened WordPress
  import opened OrderedArray
  import Helpers

  const ORDER_STATUS := "order_status"
  const TRACKING := "shipkia_tracking"
  const TRACKING_LABEL := "Shipment Status"

  // ---------------------------------------------------------------- add_tracking_column

  /** The columns the foreach loop of add_tracking_column has built after copying the columns
      `p`, in closed form: each column is copied, and the tracking column is put right after
      `order_status` (overwriting it in place when an earlier column already had its key). */
  function Placed(p: Entries<string>): Entries<string>
  {
    var s := IndexOf(p, ORDER_STATUS);
    var t := IndexOf(p, TRACKING);
    if s < 0 then p
    else if t < 0 then p[..s + 1] + [(TRACKING, TRACKING_LABEL)] + p[s + 1..]
    else if t < s then p[t := (TRACKING, TRACKING_LABEL)]
    else p[..s + 1] + [(TRACKING, p[t].1)] + Without(p[s + 1..], TRACKING)
  }

  /** The columns add_tracking_column returns: the loop's result, with the tracking column
      appended when the loop did not place one. */
  function WithTrackingColumn(columns: Entries<string>): Entries<string>
  {
    var p := Placed(columns);
    if IndexOf(p, TRACKING) >= 0 then p else p + [(TRACKING, TRACKING_LABEL)]
  }

  /** One pass of the foreach body. */
  function CopyColumn(acc: Entries<string>, e: (string, string)): Entries<string>
  {
    var a := Put(acc, e.0, e.1);
    if e.0 == ORDER_STATUS then Put(a, TRACKING, TRACKING_LABEL) else a
  }

  /** The foreach loop over the columns `p`, pass by pass. */
  function CopyColumns(p: Entries<string>): Entries<string>
    decreases |p|
  {
    if p == [] then [] else CopyColumn(CopyColumns(p[..|p| - 1]), p[|p| - 1])
  }

  /** With unique keys, the pass-by-pass loop builds exactly the closed form. */
  lemma {:induction false} CopyColumnsPlaced(p: Entries<string>)
    requires UniqueKeys(p)
    ensures CopyColumns(p) == Placed(p)
    decreases |p|
  {
    if p != [] {
      var q := p[..|p| - 1];
      UniquePrefix(p, |p| - 1);
      CopyColumnsPlaced(q);
      assert p == q + [p[|p| - 1]];
      PlacedStep(q, p[|p| - 1]);
    }
  }

  method AddTrackingColumn(columns: Entries<string>) returns (r: Entries<string>)
    requires UniqueKeys(columns)
    ensures r == WithTrackingColumn(columns)
  {
    r := [];
    var i := 0;
    while i < |columns|
      invariant 0 <= i <= |columns|
      invariant r == CopyColumns(columns[..i])
    {
      var (key, column) := columns[i];
      assert columns[..i + 1][..i] == columns[..i];
      r := Put(r, key, column);
      if key == ORDER_STATUS {
        r := Put(r, TRACKING, TRACKING_LABEL);
      }
      i := i + 1;
    }
    assert columns[..|columns|] == columns;
    CopyColumnsPlaced(columns);
    if IndexOf(r, TRACKING) < 0 {
      r := Put(r, TRACKING, TRACKING_LABEL);
    }
  }

  // ---------------------------------------------------------------- lemmas on entries

  lemma UniquePrefix(m: Entries<string>, n: nat)
    requires UniqueKeys(m) && n <= |m|
    ensures UniqueKeys(m[..n])
  {
  }

  /** Where a key first occurs once an entry is appended. */
  lemma IndexOfAppend(p: Entries<string>, e: (string, string), k: string)
    ensures IndexOf(p, k) >= 0 ==> IndexOf(p + [e], k) == IndexOf(p, k)
    ensures IndexOf(p, k) < 0 && e.0 == k ==> IndexOf(p + [e], k) == |p|
    ensures IndexOf(p, k) < 0 && e.0 != k ==> IndexOf(p + [e], k) < 0
  {
    var q := p + [e];
    IndexOfFirst(p, k);
    assert forall j :: 0 <= j < |p| ==> q[j] == p[j];
    if IndexOf(p, k) >= 0 {
      IndexOfAt(q, k, IndexOf(p, k));
    } else if e.0 == k {
      IndexOfAt(q, k, |p|);
    } else {
      IndexOfAbsent(q, k);
    }
  }

  lemma {:induction false} WithoutTwice(m: Entries<string>, k: string)
    ensures Without(Without(m, k), k) == Without(m, k)
  {
    if m != [] {
      WithoutTwice(m[1..], k);
      if m[0].0 != k {
        assert ([m[0]] + Without(m[1..], k))[1..] == Without(m[1..], k);
      }
    }
  }

  /** Dropping a key introduces no key. */
  lemma {:induction false} WithoutKeys(m: Entries<string>, x: string, k: string)
    requires forall j :: 0 <= j < |m| ==> m[j].0 != k
    ensures forall j :: 0 <= j < |Without(m, x)| ==> Without(m, x)[j].0 != k
  {
    if m != [] {
      WithoutKeys(m[1..], x, k);
    }
  }

  /** Dropping key `x` leaves no entry with key `x`. */
  lemma {:induction false} WithoutDrops(m: Entries<string>, x: string)
    ensures forall j :: 0 <= j < |Without(m, x)| ==> Without(m, x)[j].0 != x
  {
    if m != [] {
      WithoutDrops(m[1..], x);
    }
  }

  /** Dropping a key keeps the keys unique. */
  lemma {:induction false} WithoutUnique(m: Entries<string>, x: string)
    requires UniqueKeys(m)
    ensures UniqueKeys(Without(m, x))
  {
    if m != [] {
      WithoutUnique(m[1..], x);
      if m[0].0 != x {
        WithoutKeys(m[1..], x, m[0].0);
      }
    }
  }

  /** Entries appended after an existing key do not move that key. */
  lemma IndexOfPrefix(a: Entries<string>, b: Entries<string>, k: string)
    requires IndexOf(a, k) >= 0
    ensures IndexOf(a + b, k) == IndexOf(a, k)
  {
    IndexOfFirst(a, k);
    assert forall j :: 0 <= j < |a| ==> (a + b)[j] == a[j];
    IndexOfAt(a + b, k, IndexOf(a, k));
  }

  /** A tracking column put after entries without one is the first. */
  lemma InsertedAt(a: Entries<string>, x: string, b: Entries<string>)
    requires forall j :: 0 <= j < |a| ==> a[j].0 != TRACKING
    ensures IndexOf(a + [(TRACKING, x)] + b, TRACKING) == |a|
  {
    var m := a + [(TRACKING, x)] + b;
    assert forall j :: 0 <= j < |a| ==> m[j] == a[j];
    IndexOfAt(m, TRACKING, |a|);
  }

  /** The first `n` entries, when none has key `k`. */
  lemma PrefixLacks(m: Entries<string>, n: int, k: string)
    requires 0 <= n <= |m|
    requires forall j :: 0 <= j < n ==> m[j].0 != k
    ensures forall j :: 0 <= j < |m[..n]| ==> m[..n][j].0 != k
  {
  }

  // ---------------------------------------------------------------- the loop step

  /** One more foreach pass turns the closed form of a prefix into that of the longer prefix. */
  lemma PlacedStep(p: Entries<string>, e: (string, string))
    requires UniqueKeys(p + [e])
    ensures Placed(p + [e]) == CopyColumn(Placed(p), e)
  {
    var q := p + [e];
    assert forall j :: 0 <= j < |p| ==> p[j].0 != e.0 by {
      forall j | 0 <= j < |p| ensures p[j].0 != e.0 {
        assert q[j] == p[j] && q[|p|] == e;
      }
    }
    if e.0 == ORDER_STATUS {
      PlacedStepStatus(p, e);
    } else if e.0 == TRACKING {
      PlacedStepTracking(p, e);
    } else {
      PlacedStepOther(p, e);
    }
  }

  lemma PlacedStepStatus(p: Entries<string>, e: (string, string))
    requires e.0 == ORDER_STATUS
    requires forall j :: 0 <= j < |p| ==> p[j].0 != e.0
    ensures Placed(p + [e]) == CopyColumn(Placed(p), e)
  {
    var q := p + [e];
    IndexOfAbsent(p, ORDER_STATUS);
    IndexOfAppend(p, e, ORDER_STATUS);
    IndexOfAppend(p, e, TRACKING);
    assert Placed(p) == p;
    assert Put(p, e.0, e.1) == q;
    if IndexOf(p, TRACKING) < 0 {
      assert q[..|p| + 1] == q && q[|p| + 1..] == [];
    }
  }

  lemma PlacedStepTracking(p: Entries<string>, e: (string, string))
    requires e.0 == TRACKING
    requires forall j :: 0 <= j < |p| ==> p[j].0 != e.0
    ensures Placed(p + [e]) == CopyColumn(Placed(p), e)
  {
    var s := IndexOf(p, ORDER_STATUS);
    IndexOfAbsent(p, TRACKING);
    IndexOfAppend(p, e, ORDER_STATUS);
    IndexOfAppend(p, e, TRACKING);
    if s >= 0 {
      PrefixLacks(p, s + 1, TRACKING);
      InsertedAt(p[..s + 1], TRACKING_LABEL, p[s + 1..]);
      TrackingArrives(p, s, e);
    }
  }

  /** The tracking column arriving after `order_status` takes over the placed one's slot. */
  lemma TrackingArrives(p: Entries<string>, s: int, e: (string, string))
    requires 0 <= s < |p| && e.0 == TRACKING
    requires forall j :: 0 <= j < |p| ==> p[j].0 != TRACKING
    ensures var q := p + [e];
      q[..s + 1] + [(TRACKING, q[|p|].1)] + Without(q[s + 1..], TRACKING)
        == (p[..s + 1] + [(TRACKING, TRACKING_LABEL)] + p[s + 1..])[s + 1 := e]
  {
    var q := p + [e];
    var rest := p[s + 1..];
    assert q[..s + 1] == p[..s + 1];
    assert q[s + 1..] == rest + [e];
    WithoutAppend(rest, [e], TRACKING);
    assert Without([e], TRACKING) == [];
    assert forall j :: 0 <= j < |rest| ==> rest[j] == p[s + 1 + j];
    WithoutOther(rest, TRACKING);
    assert (TRACKING, q[|p|].1) == e;
    UpdateMiddle(p[..s + 1], (TRACKING, TRACKING_LABEL), e, rest);
  }

  lemma UpdateMiddle(a: Entries<string>, x: (string, string), y: (string, string), b: Entries<string>)
    ensures (a + [x] + b)[|a| := y] == a + [y] + b
  {
  }

  lemma PlacedStepOther(p: Entries<string>, e: (string, string))
    requires e.0 != TRACKING && e.0 != ORDER_STATUS
    requires forall j :: 0 <= j < |p| ==> p[j].0 != e.0
    ensures Placed(p + [e]) == CopyColumn(Placed(p), e)
  {
    var P := Placed(p);
    PlacedLacks(p, e.0);
    IndexOfAbsent(P, e.0);
    assert CopyColumn(P, e) == P + [e];
    PlacedAppendOther(p, e);
  }

  /** The closed form introduces no key but the tracking column's. */
  lemma PlacedLacks(p: Entries<string>, k: string)
    requires k != TRACKING
    requires forall j :: 0 <= j < |p| ==> p[j].0 != k
    ensures forall j :: 0 <= j < |Placed(p)| ==> Placed(p)[j].0 != k
  {
    var s := IndexOf(p, ORDER_STATUS);
    var t := IndexOf(p, TRACKING);
    if s >= 0 && t > s {
      var w := Without(p[s + 1..], TRACKING);
      assert Placed(p) == p[..s + 1] + [(TRACKING, p[t].1)] + w;
      WithoutKeys(p[s + 1..], TRACKING, k);
      MovedLacks(p[..s + 1], p[t].1, w, k);
    }
  }

  lemma MovedLacks(a: Entries<string>, x: string, w: Entries<string>, k: string)
    requires k != TRACKING
    requires forall j :: 0 <= j < |a| ==> a[j].0 != k
    requires forall j :: 0 <= j < |w| ==> w[j].0 != k
    ensures var P := a + [(TRACKING, x)] + w;
      forall j :: 0 <= j < |P| ==> P[j].0 != k
  {
    var P := a + [(TRACKING, x)] + w;
    forall j | 0 <= j < |P| ensures P[j].0 != k {
      if j > |a| {
        assert P[j] == w[j - |a| - 1];
      }
    }
  }

  /** Copying a column that is neither `order_status` nor the tracking column appends it. */
  lemma PlacedAppendOther(p: Entries<string>, e: (string, string))
    requires e.0 != TRACKING && e.0 != ORDER_STATUS
    ensures Placed(p + [e]) == Placed(p) + [e]
  {
    var s := IndexOf(p, ORDER_STATUS);
    var t := IndexOf(p, TRACKING);
    IndexOfAppend(p, e, ORDER_STATUS);
    IndexOfAppend(p, e, TRACKING);
    if s < 0 {
      assert Placed(p + [e]) == p + [e];
    } else if t < 0 {
      AppendInserted(p, e, s);
    } else if t < s {
      assert (p + [e])[t := (TRACKING, TRACKING_LABEL)] == p[t := (TRACKING, TRACKING_LABEL)] + [e];
    } else {
      AppendAfterTracking(p, e, s, t);
    }
  }

  lemma AppendInserted(p: Entries<string>, e: (string, string), s: int)
    requires 0 <= s < |p|
    ensures var q := p + [e];
      q[..s + 1] + [(TRACKING, TRACKING_LABEL)] + q[s + 1..]
        == (p[..s + 1] + [(TRACKING, TRACKING_LABEL)] + p[s + 1..]) + [e]
  {
    var q := p + [e];
    assert q[..s + 1] == p[..s + 1];
    assert q[s + 1..] == p[s + 1..] + [e];
  }

  lemma AppendAfterTracking(p: Entries<string>, e: (string, string), s: int, t: int)
    requires 0 <= s < t < |p| && e.0 != TRACKING
    ensures var q := p + [e];
      q[..s + 1] + [(TRACKING, q[t].1)] + Without(q[s + 1..], TRACKING)
        == (p[..s + 1] + [(TRACKING, p[t].1)] + Without(p[s + 1..], TRACKING)) + [e]
  {
    var q := p + [e];
    assert q[..s + 1] == p[..s + 1];
    assert q[s + 1..] == p[s + 1..] + [e];
    WithoutAppend(p[s + 1..], [e], TRACKING);
    assert q[t] == p[t];
  }

  // ---------------------------------------------------------------- sequence facts

  /** A key first found at `i` is still first found there in a list that agrees up to `i`. */
  lemma IndexOfKept(c: Entries<string>, d: Entries<string>, k: string)
    requires 0 <= IndexOf(c, k) < |d|
    requires d[..IndexOf(c, k) + 1] == c[..IndexOf(c, k) + 1]
    ensures IndexOf(d, k) == IndexOf(c, k)
  {
    var i := IndexOf(c, k);
    IndexOfFirst(c, k);
    forall j | 0 <= j <= i ensures d[j] == c[j] {
      assert d[j] == d[..i + 1][j];
    }
    IndexOfAt(d, k, i);
  }

  /** Dropping the tracking key from a list with one tracking column inserted. */
  lemma WithoutInserted(a: Entries<string>, x: string, b: Entries<string>)
    ensures Without(a + [(TRACKING, x)] + b, TRACKING) == Without(a, TRACKING) + Without(b, TRACKING)
  {
    WithoutAppend(a + [(TRACKING, x)], b, TRACKING);
    WithoutAppend(a, [(TRACKING, x)], TRACKING);
  }

  /** Dropping the tracking key from a list whose tracking column was relabelled. */
  lemma WithoutReplaced(c: Entries<string>, t: int, x: string)
    requires 0 <= t < |c| && c[t].0 == TRACKING
    ensures Without(c[t := (TRACKING, x)], TRACKING) == Without(c, TRACKING)
  {
    assert c[t := (TRACKING, x)] == c[..t] + [(TRACKING, x)] + c[t + 1..];
    assert c == c[..t] + [c[t]] + c[t + 1..];
    WithoutInserted(c[..t], x, c[t + 1..]);
    WithoutInserted(c[..t], c[t].1, c[t + 1..]);
  }

  /** Inserting a tracking column into a list without one keeps the keys unique. */
  lemma UniqueInserted(a: Entries<string>, x: string, b: Entries<string>)
    requires UniqueKeys(a + b)
    requires forall j :: 0 <= j < |a| ==> a[j].0 != TRACKING
    requires forall j :: 0 <= j < |b| ==> b[j].0 != TRACKING
    ensures UniqueKeys(a + [(TRACKING, x)] + b)
  {
    var m := a + [(TRACKING, x)] + b;
    var n := a + b;
    forall i, j | 0 <= i < j < |m| ensures m[i].0 != m[j].0 {
      if j < |a| {
        assert m[i] == n[i] && m[j] == n[j];
      } else if i < |a| && j > |a| {
        assert m[i] == n[i] && m[j] == n[j - 1];
      } else if i > |a| {
        assert m[i] == n[i - 1] && m[j] == n[j - 1];
      } else if i < |a| {
        assert m[i] == a[i];
      } else {
        assert m[j] == b[j - |a| - 1];
      }
    }
  }

  /** With exactly one entry of key `k`, dropping `k` removes exactly one entry. */
  lemma WithoutOnly(m: Entries<string>, k: string, i: int)
    requires 0 <= i < |m| && m[i].0 == k
    requires forall j :: 0 <= j < |m| && j != i ==> m[j].0 != k
    ensures |Without(m, k)| == |m| - 1
  {
    assert m == m[..i] + [m[i]] + m[i + 1..];
    WithoutAppend(m[..i] + [m[i]], m[i + 1..], k);
    WithoutAppend(m[..i], [m[i]], k);
    WithoutOther(m[..i], k);
    var rest := m[i + 1..];
    assert forall j :: 0 <= j < |rest| ==> rest[j] == m[i + 1 + j];
    WithoutOther(rest, k);
  }

  // ---------------------------------------------------------------- the closed form, case by case

  /** `order_status` present, no tracking column: it is inserted right after `order_status`. */
  lemma PlacedInserts(c: Entries<string>)
    requires IndexOf(c, ORDER_STATUS) >= 0 && IndexOf(c, TRACKING) < 0
    ensures var s := IndexOf(c, ORDER_STATUS);
      && WithTrackingColumn(c) == c[..s + 1] + [(TRACKING, TRACKING_LABEL)] + c[s + 1..]
      && IndexOf(WithTrackingColumn(c), TRACKING) == s + 1
  {
    var s := IndexOf(c, ORDER_STATUS);
    IndexOfFirst(c, TRACKING);
    PrefixLacks(c, s + 1, TRACKING);
    InsertedAt(c[..s + 1], TRACKING_LABEL, c[s + 1..]);
  }

  /** A tracking column before `order_status`: it keeps its place and gets the label. */
  lemma PlacedRelabels(c: Entries<string>)
    requires 0 <= IndexOf(c, TRACKING) < IndexOf(c, ORDER_STATUS)
    ensures var t := IndexOf(c, TRACKING);
      && WithTrackingColumn(c) == c[t := (TRACKING, TRACKING_LABEL)]
      && IndexOf(WithTrackingColumn(c), TRACKING) == t
  {
    var t := IndexOf(c, TRACKING);
    var p := c[t := (TRACKING, TRACKING_LABEL)];
    IndexOfFirst(c, TRACKING);
    IndexOfAt(p, TRACKING, t);
  }

  /** A tracking column after `order_status`: it moves right behind `order_status` with its
      own label. */
  lemma PlacedMoves(c: Entries<string>)
    requires 0 <= IndexOf(c, ORDER_STATUS) < IndexOf(c, TRACKING)
    ensures var s := IndexOf(c, ORDER_STATUS);
      var t := IndexOf(c, TRACKING);
      && WithTrackingColumn(c) == c[..s + 1] + [(TRACKING, c[t].1)] + Without(c[s + 1..], TRACKING)
      && IndexOf(WithTrackingColumn(c), TRACKING) == s + 1
  {
    var s := IndexOf(c, ORDER_STATUS);
    var t := IndexOf(c, TRACKING);
    IndexOfFirst(c, TRACKING);
    PrefixLacks(c, s + 1, TRACKING);
    InsertedAt(c[..s + 1], c[t].1, Without(c[s + 1..], TRACKING));
  }

  /** No `order_status`: the columns are kept, with the tracking column appended if missing. */
  lemma PlacedAppends(c: Entries<string>)
    requires IndexOf(c, ORDER_STATUS) < 0
    ensures WithTrackingColumn(c) == if IndexOf(c, TRACKING) >= 0 then c else c + [(TRACKING, TRACKING_LABEL)]
  {
  }

  // ---------------------------------------------------------------- properties of the column list

  /** Every column other than the tracking column is kept, with its label, in its order. */
  lemma TrackingColumnKeepsOthers(columns: Entries<string>)
    ensures Without(WithTrackingColumn(columns), TRACKING) == Without(columns, TRACKING)
  {
    var c := columns;
    var s := IndexOf(c, ORDER_STATUS);
    var t := IndexOf(c, TRACKING);
    if s < 0 {
      PlacedAppends(c);
      WithoutAppend(c, [(TRACKING, TRACKING_LABEL)], TRACKING);
    } else {
      assert c == c[..s + 1] + c[s + 1..];
      WithoutAppend(c[..s + 1], c[s + 1..], TRACKING);
      if t < 0 {
        PlacedInserts(c);
        WithoutInserted(c[..s + 1], TRACKING_LABEL, c[s + 1..]);
      } else if t < s {
        PlacedRelabels(c);
        WithoutReplaced(c, t, TRACKING_LABEL);
      } else {
        PlacedMoves(c);
        WithoutInserted(c[..s + 1], c[t].1, Without(c[s + 1..], TRACKING));
        WithoutTwice(c[s + 1..], TRACKING);
      }
    }
  }

  /** The tracking column is always there, and the keys stay unique. */
  lemma TrackingColumnPresent(columns: Entries<string>)
    requires UniqueKeys(columns)
    ensures HasKey(WithTrackingColumn(columns), TRACKING)
    ensures UniqueKeys(WithTrackingColumn(columns))
  {
    var s := IndexOf(columns, ORDER_STATUS);
    var t := IndexOf(columns, TRACKING);
    if s < 0 {
      PresentAppended(columns);
    } else if t < 0 {
      PresentInserted(columns);
    } else if t < s {
      PresentRelabelled(columns);
    } else {
      PresentMoved(columns);
    }
  }

  lemma PresentAppended(c: Entries<string>)
    requires UniqueKeys(c) && IndexOf(c, ORDER_STATUS) < 0
    ensures HasKey(WithTrackingColumn(c), TRACKING) && UniqueKeys(WithTrackingColumn(c))
  {
    var r := WithTrackingColumn(c);
    PlacedAppends(c);
    var t := IndexOf(c, TRACKING);
    if t < 0 {
      IndexOfFirst(c, TRACKING);
      assert c + [(TRACKING, TRACKING_LABEL)] == c + [(TRACKING, TRACKING_LABEL)] + [];
      assert c + [] == c;
      UniqueInserted(c, TRACKING_LABEL, []);
      assert r[|c|].0 == TRACKING;
    } else {
      assert r[t].0 == TRACKING;
    }
  }

  lemma PresentInserted(c: Entries<string>)
    requires UniqueKeys(c) && IndexOf(c, ORDER_STATUS) >= 0 && IndexOf(c, TRACKING) < 0
    ensures HasKey(WithTrackingColumn(c), TRACKING) && UniqueKeys(WithTrackingColumn(c))
  {
    var s := IndexOf(c, ORDER_STATUS);
    PlacedInserts(c);
    IndexOfFirst(c, TRACKING);
    UniqueInsertedAt(c, s + 1, TRACKING_LABEL);
    assert WithTrackingColumn(c)[s + 1].0 == TRACKING;
  }

  /** Inserting a tracking column at position `n` of a list without one keeps the keys unique. */
  lemma UniqueInsertedAt(c: Entries<string>, n: int, x: string)
    requires 0 <= n <= |c| && UniqueKeys(c)
    requires forall j :: 0 <= j < |c| ==> c[j].0 != TRACKING
    ensures UniqueKeys(c[..n] + [(TRACKING, x)] + c[n..])
  {
    var m := c[..n] + [(TRACKING, x)] + c[n..];
    assert forall j :: 0 <= j < |m| ==> m[j] == if j < n then c[j] else if j == n then (TRACKING, x) else c[j - 1];
  }

  lemma PresentRelabelled(c: Entries<string>)
    requires UniqueKeys(c) && 0 <= IndexOf(c, TRACKING) < IndexOf(c, ORDER_STATUS)
    ensures HasKey(WithTrackingColumn(c), TRACKING) && UniqueKeys(WithTrackingColumn(c))
  {
    var t := IndexOf(c, TRACKING);
    var r := WithTrackingColumn(c);
    PlacedRelabels(c);
    assert r[t].0 == TRACKING;
    forall i, j | 0 <= i < j < |r| ensures r[i].0 != r[j].0 {
      assert r[i].0 == c[i].0 && r[j].0 == c[j].0;
    }
  }

  lemma PresentMoved(c: Entries<string>)
    requires UniqueKeys(c) && 0 <= IndexOf(c, ORDER_STATUS) < IndexOf(c, TRACKING)
    ensures HasKey(WithTrackingColumn(c), TRACKING) && UniqueKeys(WithTrackingColumn(c))
  {
    var s := IndexOf(c, ORDER_STATUS);
    var t := IndexOf(c, TRACKING);
    var d := Without(c, TRACKING);
    PlacedMoves(c);
    MovedDecomposes(c);
    WithoutUnique(c, TRACKING);
    WithoutDrops(c, TRACKING);
    UniqueInsertedAt(d, s + 1, c[t].1);
    assert d[..s + 1] == c[..s + 1] && d[s + 1..] == Without(c[s + 1..], TRACKING);
    assert WithTrackingColumn(c)[s + 1].0 == TRACKING;
  }

  /** Before a later tracking column, dropping the tracking key changes nothing. */
  lemma MovedDecomposes(c: Entries<string>)
    requires 0 <= IndexOf(c, ORDER_STATUS) < IndexOf(c, TRACKING)
    ensures var s := IndexOf(c, ORDER_STATUS);
      Without(c, TRACKING) == c[..s + 1] + Without(c[s + 1..], TRACKING)
  {
    var s := IndexOf(c, ORDER_STATUS);
    IndexOfFirst(c, TRACKING);
    PrefixLacks(c, s + 1, TRACKING);
    assert c == c[..s + 1] + c[s + 1..];
    WithoutAppend(c[..s + 1], c[s + 1..], TRACKING);
    WithoutOther(c[..s + 1], TRACKING);
  }

  /** When there is no tracking column, it comes right after `order_status`, everything before
      it stays where it was, everything after it moves down one place, and the list grows by
      exactly one. */
  lemma TrackingColumnAfterOrderStatus(columns: Entries<string>)
    requires IndexOf(columns, TRACKING) < 0 && IndexOf(columns, ORDER_STATUS) >= 0
    ensures var s := IndexOf(columns, ORDER_STATUS);
      var r := WithTrackingColumn(columns);
      && |r| == |columns| + 1
      && r[..s + 1] == columns[..s + 1]
      && r[s + 1] == (TRACKING, TRACKING_LABEL)
      && r[s + 2..] == columns[s + 1..]
  {
    PlacedInserts(columns);
  }

  /** Without `order_status`, the tracking column is appended as the last column when it is
      missing, and nothing changes when it is there. */
  lemma TrackingColumnAppended(columns: Entries<string>)
    requires IndexOf(columns, ORDER_STATUS) < 0
    ensures IndexOf(columns, TRACKING) < 0 ==> WithTrackingColumn(columns) == columns + [(TRACKING, TRACKING_LABEL)]
    ensures IndexOf(columns, TRACKING) >= 0 ==> WithTrackingColumn(columns) == columns
  {
    PlacedAppends(columns);
  }

  /** Columns that already have a tracking column get no new one. */
  lemma TrackingColumnNotAdded(columns: Entries<string>)
    requires UniqueKeys(columns) && IndexOf(columns, TRACKING) >= 0
    ensures |WithTrackingColumn(columns)| == |columns|
  {
    var s := IndexOf(columns, ORDER_STATUS);
    var t := IndexOf(columns, TRACKING);
    if s < 0 {
      PlacedAppends(columns);
    } else if t < s {
      PlacedRelabels(columns);
    } else {
      PlacedMoves(columns);
      MovedLength(columns, s, t);
    }
  }

  lemma MovedLength(c: Entries<string>, s: int, t: int)
    requires UniqueKeys(c) && 0 <= s < t < |c| && c[t].0 == TRACKING
    ensures |Without(c[s + 1..], TRACKING)| == |c| - s - 2
  {
    var rest := c[s + 1..];
    forall j | 0 <= j < |rest| && j != t - s - 1 ensures rest[j].0 != TRACKING {
      assert rest[j] == c[s + 1 + j];
    }
    WithoutOnly(rest, TRACKING, t - s - 1);
  }

  /** Running the filter twice adds nothing more. */
  lemma TrackingColumnIdempotent(columns: Entries<string>)
    ensures WithTrackingColumn(WithTrackingColumn(columns)) == WithTrackingColumn(columns)
  {
    var s := IndexOf(columns, ORDER_STATUS);
    var t := IndexOf(columns, TRACKING);
    if s < 0 {
      IdempotentAppended(columns);
    } else if t < 0 {
      IdempotentInserted(columns);
    } else if t < s {
      IdempotentRelabelled(columns);
    } else {
      IdempotentMoved(columns);
    }
  }

  lemma IdempotentAppended(c: Entries<string>)
    requires IndexOf(c, ORDER_STATUS) < 0
    ensures WithTrackingColumn(WithTrackingColumn(c)) == WithTrackingColumn(c)
  {
    PlacedAppends(c);
    IndexOfAppend(c, (TRACKING, TRACKING_LABEL), ORDER_STATUS);
    IndexOfAppend(c, (TRACKING, TRACKING_LABEL), TRACKING);
    PlacedAppends(WithTrackingColumn(c));
  }

  lemma IdempotentInserted(c: Entries<string>)
    requires IndexOf(c, ORDER_STATUS) >= 0 && IndexOf(c, TRACKING) < 0
    ensures WithTrackingColumn(WithTrackingColumn(c)) == WithTrackingColumn(c)
  {
    var s := IndexOf(c, ORDER_STATUS);
    var r := WithTrackingColumn(c);
    PlacedInserts(c);
    IndexOfKept(c, r, ORDER_STATUS);
    assert r[s + 2..] == c[s + 1..];
    IndexOfFirst(c, TRACKING);
    var rest := c[s + 1..];
    assert forall j :: 0 <= j < |rest| ==> rest[j] == c[s + 1 + j];
    WithoutOther(rest, TRACKING);
    PlacedMoves(r);
    assert r == r[..s + 1] + [(TRACKING, r[s + 1].1)] + r[s + 2..];
  }

  lemma IdempotentRelabelled(c: Entries<string>)
    requires 0 <= IndexOf(c, TRACKING) < IndexOf(c, ORDER_STATUS)
    ensures WithTrackingColumn(WithTrackingColumn(c)) == WithTrackingColumn(c)
  {
    var s := IndexOf(c, ORDER_STATUS);
    var t := IndexOf(c, TRACKING);
    var r := WithTrackingColumn(c);
    PlacedRelabels(c);
    IndexOfFirst(c, ORDER_STATUS);
    forall j | 0 <= j < s ensures r[j].0 != ORDER_STATUS {
      if j != t {
        assert r[j] == c[j];
      }
    }
    IndexOfAt(r, ORDER_STATUS, s);
    PlacedRelabels(r);
  }

  lemma IdempotentMoved(c: Entries<string>)
    requires 0 <= IndexOf(c, ORDER_STATUS) < IndexOf(c, TRACKING)
    ensures WithTrackingColumn(WithTrackingColumn(c)) == WithTrackingColumn(c)
  {
    var s := IndexOf(c, ORDER_STATUS);
    var r := WithTrackingColumn(c);
    PlacedMoves(c);
    var w := Without(c[s + 1..], TRACKING);
    IndexOfKept(c, r, ORDER_STATUS);
    assert r[s + 2..] == w;
    WithoutTwice(c[s + 1..], TRACKING);
    PlacedMoves(r);
    assert r == r[..s + 1] + [(TRACKING, r[s + 1].1)] + r[s + 2..];
  }

  // ---------------------------------------------------------------- render_column_content

  /** What the column cell shows, piece by piece (escaping and markup left out). */
  datatype Fragment =
    | Dash                  // <span class="na">&ndash;</span>
    | Status(status: string) // <strong>…</strong>
    | AwbLine(awb: string)   // <br><small class="meta">…</small>
    | Awb(awb: string)       // the bare AWB number
    | TrackLink(url: string) // <br><a …>Track</a>

  /** The meta-driven part of the cell: status and AWB, or a dash. */
  function StatusPart(status: string, awb: string): seq<Fragment>
  {
    if !EmptyString(status) then [Status(status)] + (if !EmptyString(awb) then [AwbLine(awb)] else [])
    else if !EmptyString(awb) then [Awb(awb)]
    else [Dash]
  }

  /** render_column_content($order_id). */
  function ColumnContent(orders: map<int, Order>, orderId: int): (r: seq<Fragment>)
    ensures orderId !in orders ==> r == [Dash]
  {
    match FindOrder(orders, orderId)
    case None => [Dash]
    case Some(order) =>
      var status := GetMeta(order, Helpers.STATUS_META);
      var awb := GetMeta(order, Helpers.AWB_META);
      var url := GetMeta(order, Helpers.TRACKING_URL_META);
      StatusPart(status, awb) + (if !EmptyString(url) then [TrackLink(url)] else [])
  }

  /** For an order that exists, the cell shows: the status iff it is non-empty; the AWB as a
      second line under a non-empty status, alone under an empty one, and not at all when it is
      empty; a dash iff both are empty; a Track link to the order's URL iff that URL is non-empty,
      as the last piece and whatever the status and AWB are. */
  lemma {:induction false} ColumnContentShows(orders: map<int, Order>, orderId: int)
    requires orderId in orders
    ensures var order := orders[orderId];
      var status := GetMeta(order, Helpers.STATUS_META);
      var awb := GetMeta(order, Helpers.AWB_META);
      var url := GetMeta(order, Helpers.TRACKING_URL_META);
      var r := ColumnContent(orders, orderId);
      && (Status(status) in r <==> !EmptyString(status))
      && (AwbLine(awb) in r <==> !EmptyString(status) && !EmptyString(awb))
      && (Awb(awb) in r <==> EmptyString(status) && !EmptyString(awb))
      && (Dash in r <==> EmptyString(status) && EmptyString(awb))
      && (TrackLink(url) in r <==> !EmptyString(url))
      && (!EmptyString(url) ==> r[|r| - 1] == TrackLink(url))
      && (forall f :: f in r && f.TrackLink? ==> f == TrackLink(url))
      && (forall f :: f in r ==> f == Status(status) || f == AwbLine(awb) || f == Awb(awb) || f == Dash || f == TrackLink(url))
      && (!EmptyString(status) ==> r[0] == Status(status))
      && (!EmptyString(status) && !EmptyString(awb) ==> r[1] == AwbLine(awb))
      && (EmptyString(status) ==> r[0] == (if EmptyString(awb) then Dash else Awb(awb)))
      && |r| == (if !EmptyString(status) && !EmptyString(awb) then 2 else 1) + (if EmptyString(url) then 0 else 1)
      && |r| >= 1
  {
    var order := orders[orderId];
    var status := GetMeta(order, Helpers.STATUS_META);
    var awb := GetMeta(order, Helpers.AWB_META);
    var url := GetMeta(order, Helpers.TRACKING_URL_META);
    var head := StatusPart(status, awb);
    var tail := if !EmptyString(url) then [TrackLink(url)] else [];
    assert ColumnContent(orders, orderId) == head + tail;
    assert forall f :: f in head + tail <==> f in head || f in tail;
  }

  /** The Track link depends on the URL alone: orders that agree on the URL agree on whether
      the cell links, and where to. */
  lemma TrackLinkIndependent(orders: map<int, Order>, a: int, b: int)
    requires a in orders && b in orders
    requires GetMeta(orders[a], Helpers.TRACKING_URL_META) == GetMeta(orders[b], Helpers.TRACKING_URL_META)
    ensures forall u :: TrackLink(u) in ColumnContent(orders, a) <==> TrackLink(u) in ColumnContent(orders, b)
  {
    ColumnContentShows(orders, a);
    ColumnContentShows(orders, b);
  }

  // ---------------------------------------------------------------- the column renderers

  /** render_tracking_column($column, $post_id): the cell, for the tracking column only. */
  function RenderTrackingColumn(orders: map<int, Order>, column: string, postId: int): (r: seq<Fragment>)
    ensures column != TRACKING ==> r == []
    ensures column == TRACKING ==> r == ColumnContent(orders, postId) && |r| >= 1
  {
    ColumnContentNonEmpty(orders, postId);
    if column == TRACKING then ColumnContent(orders, postId) else []
  }

  /** render_tracking_column_hpos($column, $order): the same cell, looked up by the order's id. */
  function RenderTrackingColumnHpos(orders: map<int, Order>, column: string, order: Order): (r: seq<Fragment>)
    ensures r == RenderTrackingColumn(orders, column, order.id)
  {
    if column == TRACKING then ColumnContent(orders, order.id) else []
  }

  lemma ColumnContentNonEmpty(orders: map<int, Order>, orderId: int)
    ensures |ColumnContent(orders, orderId)| >= 1
  {
    if orderId in orders {
      ColumnContentShows(orders, orderId);
    }
  }
}
