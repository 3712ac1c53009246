/** The edits the timeline commits to the synth pattern when a note drag ends or
    the selection is deleted, and the per-track effect lists
    (src/app/components/Timeline.tsx). Every lookup by id skips legacy
    bare-name entries. */
module TimelineEdits {
  import opened Types

  /** The entry is a note record carrying this id (legacy names never match). */
  predicate HasId(e: SlotEntry, id: string) {
    e.Note? && e.n.id == id
  }

  /** findIndex over a slot: the first note record with this id. */
  function FindNote(slot: seq<SlotEntry>, id: string): (r: Option<nat>)
    ensures r.Some? ==> r.value < |slot| && HasId(slot[r.value], id)
    ensures r.Some? ==> forall j :: 0 <= j < r.value ==> !HasId(slot[j], id)
    ensures r.None? <==> forall j :: 0 <= j < |slot| ==> !HasId(slot[j], id)
  {
    if |slot| == 0 then None
    else if HasId(slot[0], id) then Some(0)
    else match FindNote(slot[1..], id)
      case None => None
      case Some(k) => Some(k + 1)
  }

  /** splice(k, 1) */
  function RemoveAt<T>(s: seq<T>, k: nat): (r: seq<T>)
    requires k < |s|
    ensures |r| == |s| - 1
    ensures multiset(r) + multiset{s[k]} == multiset(s)
  {
    assert s == s[..k] + [s[k]] + s[k + 1..];
    s[..k] + s[k + 1..]
  }

  // ---------------------------------------------------------------- move

  /** The pattern a move drag emits on mouse-up, or None when nothing is
      emitted. A plain move takes the note out of slot `from` and appends it to
      slot `to`; a duplicate (alt-drag) appends a copy carrying `freshId`. */
  function Moved(p: SynthPattern, from: nat, to: nat, id: string, isDuplicate: bool, freshId: string): (r: Option<SynthPattern>)
    requires from < |p| && to < |p|
    ensures r.Some? <==> (to != from || isDuplicate) && FindNote(p[from], id).Some?
    ensures r.Some? ==> |r.value| == |p|
  {
    if to == from && !isDuplicate then None
    else match FindNote(p[from], id)
      case None => None
      case Some(k) =>
        var note := p[from][k].n;
        if !isDuplicate then
          var p1 := p[from := RemoveAt(p[from], k)];
          Some(p1[to := p1[to] + [Note(note)]])
        else
          Some(p[to := p[to] + [Note(note.(id := freshId))]])
  }

  /** The result of a committed plain move, written out. */
  lemma MovedPlain(p: SynthPattern, from: nat, to: nat, id: string, freshId: string, k: nat)
    requires from < |p| && to < |p| && from != to
    requires FindNote(p[from], id) == Some(k)
    ensures Moved(p, from, to, id, false, freshId)
            == Some(p[from := RemoveAt(p[from], k)][to := p[to] + [p[from][k]]])
  {
  }

  /** The result of a committed duplicate, written out. */
  lemma MovedDuplicate(p: SynthPattern, from: nat, to: nat, id: string, freshId: string, k: nat)
    requires from < |p| && to < |p|
    requires FindNote(p[from], id) == Some(k)
    ensures Moved(p, from, to, id, true, freshId)
            == Some(p[to := p[to] + [Note(p[from][k].n.(id := freshId))]])
  {
  }

  /** A move emits a pattern exactly when it changes slot or duplicates, and the
      id names a note record of the origin slot. */
  lemma MoveEmitsIff(p: SynthPattern, from: nat, to: nat, id: string, isDuplicate: bool, freshId: string)
    requires from < |p| && to < |p|
    ensures Moved(p, from, to, id, isDuplicate, freshId).Some?
            <==> (to != from || isDuplicate) && exists j :: 0 <= j < |p[from]| && HasId(p[from][j], id)
  {
  }

  /** A plain move: the note leaves slot `from` (everything else there keeps its
      order), lands last in slot `to`, and no other slot changes. */
  lemma MoveShape(p: SynthPattern, from: nat, to: nat, id: string, freshId: string)
    requires from < |p| && to < |p| && from != to
    requires FindNote(p[from], id).Some?
    ensures var k := FindNote(p[from], id).value;
            var q := Moved(p, from, to, id, false, freshId).value;
            |q| == |p|
            && q[from] == p[from][..k] + p[from][k + 1..]
            && q[to] == p[to] + [p[from][k]]
            && (forall j :: 0 <= j < |p| && j != from && j != to ==> q[j] == p[j])
  {
  }

  /** A duplicate keeps the original where it is and appends to slot `to` a copy
      that differs only in its id; this holds also when `to == from`. */
  lemma DuplicateShape(p: SynthPattern, from: nat, to: nat, id: string, freshId: string)
    requires from < |p| && to < |p|
    requires FindNote(p[from], id).Some?
    ensures var k := FindNote(p[from], id).value;
            var n := p[from][k].n;
            var q := Moved(p, from, to, id, true, freshId).value;
            |q| == |p|
            && q[to] == p[to] + [Note(SynthNote(freshId, n.note, n.durationSteps, n.velocity, n.instrumentId))]
            && (forall j :: 0 <= j < |p| && j != to ==> q[j] == p[j])
  {
  }

  /** How often entry e occurs in the pattern, over all slots. */
  function EntryCount(p: SynthPattern, e: SlotEntry): nat {
    if |p| == 0 then 0 else EntryCount(p[..|p| - 1], e) + multiset(p[|p| - 1])[e]
  }

  /** How many note records carry this id in a slot. */
  function SlotIdCount(s: seq<SlotEntry>, id: string): nat {
    if |s| == 0 then 0
    else SlotIdCount(s[..|s| - 1], id) + (if HasId(s[|s| - 1], id) then 1 else 0)
  }

  /** How many note records carry this id in the pattern. */
  function IdCount(p: SynthPattern, id: string): nat {
    if |p| == 0 then 0 else IdCount(p[..|p| - 1], id) + SlotIdCount(p[|p| - 1], id)
  }

  /** Number of entries of a pattern (notes and legacy names). */
  function TotalEntries(p: SynthPattern): nat {
    if |p| == 0 then 0 else TotalEntries(p[..|p| - 1]) + |p[|p| - 1]|
  }

  /** Note ids are unique across the pattern. */
  ghost predicate UniqueIds(p: SynthPattern) {
    forall id :: IdCount(p, id) <= 1
  }

  /** Replacing slot j by s changes each tally by the difference between the
      two slots. */
  lemma {:induction false} EntryCountUpdate(p: SynthPattern, j: nat, s: seq<SlotEntry>, e: SlotEntry)
    requires j < |p|
    ensures EntryCount(p[j := s], e) + multiset(p[j])[e] == EntryCount(p, e) + multiset(s)[e]
    decreases |p|
  {
    var q := p[j := s];
    var n := |p| - 1;
    if j == n {
      assert q[..n] == p[..n];
    } else {
      assert q[..n] == p[..n][j := s];
      EntryCountUpdate(p[..n], j, s, e);
    }
  }

  lemma {:induction false} IdCountUpdate(p: SynthPattern, j: nat, s: seq<SlotEntry>, id: string)
    requires j < |p|
    ensures IdCount(p[j := s], id) + SlotIdCount(p[j], id) == IdCount(p, id) + SlotIdCount(s, id)
    decreases |p|
  {
    var q := p[j := s];
    var n := |p| - 1;
    if j == n {
      assert q[..n] == p[..n];
    } else {
      assert q[..n] == p[..n][j := s];
      IdCountUpdate(p[..n], j, s, id);
    }
  }

  lemma {:induction false} TotalUpdate(p: SynthPattern, j: nat, s: seq<SlotEntry>)
    requires j < |p|
    ensures TotalEntries(p[j := s]) + |p[j]| == TotalEntries(p) + |s|
    decreases |p|
  {
    var q := p[j := s];
    var n := |p| - 1;
    if j == n {
      assert q[..n] == p[..n];
    } else {
      assert q[..n] == p[..n][j := s];
      TotalUpdate(p[..n], j, s);
    }
  }

  lemma {:induction false} SlotIdCountAppend(s: seq<SlotEntry>, e: SlotEntry, id: string)
    ensures SlotIdCount(s + [e], id) == SlotIdCount(s, id) + if HasId(e, id) then 1 else 0
  {
    assert (s + [e])[..|s|] == s;
  }

  lemma {:induction false} SlotIdCountRemoveAt(s: seq<SlotEntry>, k: nat, id: string)
    requires k < |s|
    ensures SlotIdCount(RemoveAt(s, k), id) + (if HasId(s[k], id) then 1 else 0) == SlotIdCount(s, id)
    decreases |s|
  {
    var n := |s| - 1;
    var r := RemoveAt(s, k);
    if k == n {
      assert r == s[..n];
    } else {
      assert r[..|r| - 1] == RemoveAt(s[..n], k);
      assert r[|r| - 1] == s[n];
      SlotIdCountRemoveAt(s[..n], k, id);
    }
  }

  /** A plain move rearranges entries without creating or losing any: every
      entry keeps its number of occurrences, so the entry count and the tally
      of every note id are preserved. */
  lemma MovePreservesEntries(p: SynthPattern, from: nat, to: nat, id: string, freshId: string)
    requires from < |p| && to < |p|
    requires Moved(p, from, to, id, false, freshId).Some?
    ensures forall e :: EntryCount(Moved(p, from, to, id, false, freshId).value, e) == EntryCount(p, e)
    ensures forall x :: IdCount(Moved(p, from, to, id, false, freshId).value, x) == IdCount(p, x)
    ensures TotalEntries(Moved(p, from, to, id, false, freshId).value) == TotalEntries(p)
  {
    var k := FindNote(p[from], id).value;
    var n := p[from][k];
    var rest := RemoveAt(p[from], k);
    var p1 := p[from := rest];
    MovedPlain(p, from, to, id, freshId, k);
    assert p1[to] == p[to];
    var q := p1[to := p1[to] + [n]];
    forall e ensures EntryCount(q, e) == EntryCount(p, e) {
      EntryCountUpdate(p, from, rest, e);
      EntryCountUpdate(p1, to, p1[to] + [n], e);
      assert multiset(p1[to] + [n])[e] == multiset(p1[to])[e] + multiset{n}[e];
    }
    forall x ensures IdCount(q, x) == IdCount(p, x) {
      IdCountUpdate(p, from, rest, x);
      SlotIdCountRemoveAt(p[from], k, x);
      IdCountUpdate(p1, to, p1[to] + [n], x);
      SlotIdCountAppend(p1[to], n, x);
    }
    TotalUpdate(p, from, rest);
    TotalUpdate(p1, to, p1[to] + [n]);
  }

  /** A duplicate adds exactly one entry, the copy, and one record carrying the
      fresh id; so a fresh id keeps the ids unique. */
  lemma DuplicateAddsOne(p: SynthPattern, from: nat, to: nat, id: string, freshId: string)
    requires from < |p| && to < |p|
    requires Moved(p, from, to, id, true, freshId).Some?
    ensures var n := p[from][FindNote(p[from], id).value].n;
            forall e :: EntryCount(Moved(p, from, to, id, true, freshId).value, e)
                        == EntryCount(p, e) + if e == Note(n.(id := freshId)) then 1 else 0
    ensures forall x :: IdCount(Moved(p, from, to, id, true, freshId).value, x)
                        == IdCount(p, x) + if x == freshId then 1 else 0
    ensures TotalEntries(Moved(p, from, to, id, true, freshId).value) == TotalEntries(p) + 1
    ensures UniqueIds(p) && IdCount(p, freshId) == 0 ==> UniqueIds(Moved(p, from, to, id, true, freshId).value)
  {
    var k := FindNote(p[from], id).value;
    var c := Note(p[from][k].n.(id := freshId));
    var q := p[to := p[to] + [c]];
    MovedDuplicate(p, from, to, id, freshId, k);
    forall e ensures EntryCount(q, e) == EntryCount(p, e) + if e == c then 1 else 0 {
      EntryCountUpdate(p, to, p[to] + [c], e);
      assert multiset(p[to] + [c])[e] == multiset(p[to])[e] + multiset{c}[e];
    }
    forall x ensures IdCount(q, x) == IdCount(p, x) + if x == freshId then 1 else 0 {
      IdCountUpdate(p, to, p[to] + [c], x);
      SlotIdCountAppend(p[to], c, x);
    }
    TotalUpdate(p, to, p[to] + [c]);
  }

  /** A plain move keeps note ids unique. */
  lemma MoveKeepsUniqueIds(p: SynthPattern, from: nat, to: nat, id: string, freshId: string)
    requires from < |p| && to < |p|
    requires UniqueIds(p) && Moved(p, from, to, id, false, freshId).Some?
    ensures UniqueIds(Moved(p, from, to, id, false, freshId).value)
  {
    MovePreservesEntries(p, from, to, id, freshId);
  }

  /** Appending a note with the id to a slot without one makes it the match. */
  lemma FindAppended(s: seq<SlotEntry>, e: SlotEntry, id: string)
    requires FindNote(s, id).None? && HasId(e, id)
    ensures FindNote(s + [e], id) == Some(|s|)
  {
    assert (s + [e])[|s|] == e;
  }

  /** Moving the last note of slot `from` to slot `to`, written out. */
  lemma MoveLastOut(p: SynthPattern, from: nat, to: nat, id: string, freshId: string)
    requires from < |p| && to < |p| && from != to
    requires |p[from]| > 0 && FindNote(p[from], id) == Some(|p[from]| - 1)
    ensures var k := |p[from]| - 1;
            Moved(p, from, to, id, false, freshId) == Some(p[from := p[from][..k]][to := p[to] + [p[from][k]]])
  {
    var k := |p[from]| - 1;
    assert RemoveAt(p[from], k) == p[from][..k];
    MovedPlain(p, from, to, id, freshId, k);
  }

  /** Moving the last note of a slot away and then back restores the pattern. */
  lemma MoveThereAndBack(p: SynthPattern, from: nat, to: nat, id: string, freshId: string)
    requires from < |p| && to < |p| && from != to
    requires |p[from]| > 0 && FindNote(p[from], id) == Some(|p[from]| - 1)
    requires FindNote(p[to], id).None?
    ensures var q := Moved(p, from, to, id, false, freshId).value;
            Moved(q, to, from, id, false, freshId) == Some(p)
  {
    var k := |p[from]| - 1;
    var e := p[from][k];
    var q := p[from := p[from][..k]][to := p[to] + [e]];
    assert Moved(p, from, to, id, false, freshId) == Some(q) by {
      MoveLastOut(p, from, to, id, freshId);
    }
    assert FindNote(q[to], id) == Some(|q[to]| - 1) by {
      assert q[to] == p[to] + [e];
      FindAppended(p[to], e, id);
    }
    assert Moved(q, to, from, id, false, freshId) == Some(q[to := p[to]][from := p[from]]) by {
      MoveLastOut(q, to, from, id, freshId);
      assert q[to][..|p[to]|] == p[to] && q[to][|p[to]|] == e;
      assert q[from] + [e] == p[from];
    }
    UpdateBack(p, from, to, p[from][..k], p[to] + [e]);
  }

  /** Writing two slots and then their old values back restores a sequence. */
  lemma UpdateBack<T>(p: seq<T>, i: nat, j: nat, a: T, b: T)
    requires i < |p| && j < |p| && i != j
    ensures p[i := a][j := b][j := p[j]][i := p[i]] == p
  {
    assert forall k :: 0 <= k < |p| ==> p[i := a][j := b][j := p[j]][i := p[i]][k] == p[k];
  }

  // -------------------------------------------------------------- resize

  /** The first slot, from i on, whose findIndex succeeds. */
  function FirstSlotWith(p: SynthPattern, id: string, i: nat): (r: Option<nat>)
    requires i <= |p|
    ensures r.Some? ==> i <= r.value < |p| && FindNote(p[r.value], id).Some?
    ensures r.Some? ==> forall j :: i <= j < r.value ==> FindNote(p[j], id).None?
    ensures r.None? <==> forall j :: i <= j < |p| ==> FindNote(p[j], id).None?
    decreases |p| - i
  {
    if i == |p| then None
    else if FindNote(p[i], id).Some? then Some(i)
    else FirstSlotWith(p, id, i + 1)
  }

  /** `newDur || note.durationSteps`: a missing or zero new duration keeps the
      old one. */
  function NewDuration(newDur: Option<int>, oldDur: int): (d: int)
    ensures newDur.Some? && newDur.value != 0 ==> d == newDur.value
    ensures newDur.None? || newDur.value == 0 ==> d == oldDur
  {
    if newDur.Some? && newDur.value != 0 then newDur.value else oldDur
  }

  /** The pattern a resize drag emits: the first note with the id, scanning
      slots in order, gets the new duration. */
  function Resized(p: SynthPattern, id: string, newDur: Option<int>): (r: SynthPattern)
    ensures |r| == |p| && forall j :: 0 <= j < |p| ==> |r[j]| == |p[j]|
    ensures FirstSlotWith(p, id, 0).None? ==> r == p
  {
    match FirstSlotWith(p, id, 0)
    case None => p
    case Some(i) =>
      var k := FindNote(p[i], id).value;
      var n := p[i][k].n;
      p[i := p[i][k := Note(n.(durationSteps := NewDuration(newDur, n.durationSteps)))]]
  }

  /** The copy-and-scan loop of the resize commit, stopping at the first slot
      holding the note. */
  method CommitResize(p: SynthPattern, id: string, newDur: Option<int>) returns (np: SynthPattern)
    ensures np == Resized(p, id, newDur)
  {
    np := p;
    for i := 0 to |np|
      invariant np == p
      invariant forall j :: 0 <= j < i ==> FindNote(p[j], id).None?
    {
      var found := FindNote(np[i], id);
      if found.Some? {
        var k := found.value;
        var n := np[i][k].n;
        np := np[i := np[i][k := Note(n.(durationSteps := NewDuration(newDur, n.durationSteps)))]];
        return;
      }
    }
  }

  /** A resize touches only the duration of the first matching note: every
      slot keeps its length, and every entry other than that one is unchanged.
      With no matching note the pattern is unchanged. */
  lemma ResizeOnlyDuration(p: SynthPattern, id: string, newDur: Option<int>)
    ensures |Resized(p, id, newDur)| == |p|
    ensures FirstSlotWith(p, id, 0).None? ==> Resized(p, id, newDur) == p
    ensures FirstSlotWith(p, id, 0).Some? ==>
              var i := FirstSlotWith(p, id, 0).value;
              var k := FindNote(p[i], id).value;
              var q := Resized(p, id, newDur);
              var n := p[i][k].n;
              (forall j :: 0 <= j < |p| && j != i ==> q[j] == p[j])
              && |q[i]| == |p[i]|
              && (forall j :: 0 <= j < |p[i]| && j != k ==> q[i][j] == p[i][j])
              && q[i][k] == Note(SynthNote(n.id, n.note, NewDuration(newDur, n.durationSteps), n.velocity, n.instrumentId))
  {
  }

  lemma {:induction false} SlotIdCountReplace(s: seq<SlotEntry>, k: nat, e: SlotEntry, x: string)
    requires k < |s| && (HasId(e, x) <==> HasId(s[k], x))
    ensures SlotIdCount(s[k := e], x) == SlotIdCount(s, x)
    decreases |s|
  {
    var n := |s| - 1;
    var t := s[k := e];
    if k == n {
      assert t[..n] == s[..n];
    } else {
      assert t[..n] == s[..n][k := e];
      SlotIdCountReplace(s[..n], k, e, x);
    }
  }

  /** A resize changes no id, so every id keeps its tally and unique ids stay
      unique. */
  lemma ResizeKeepsIds(p: SynthPattern, id: string, newDur: Option<int>)
    ensures forall x :: IdCount(Resized(p, id, newDur), x) == IdCount(p, x)
    ensures UniqueIds(p) ==> UniqueIds(Resized(p, id, newDur))
  {
    if FirstSlotWith(p, id, 0).Some? {
      var i := FirstSlotWith(p, id, 0).value;
      var k := FindNote(p[i], id).value;
      var n := p[i][k].n;
      var e := Note(n.(durationSteps := NewDuration(newDur, n.durationSteps)));
      forall x ensures IdCount(Resized(p, id, newDur), x) == IdCount(p, x) {
        IdCountUpdate(p, i, p[i][k := e], x);
        SlotIdCountReplace(p[i], k, e, x);
      }
    }
  }

  /** Id-level shape: two slots that agree on where the id occurs agree on
      findIndex. */
  lemma FindSameIds(s: seq<SlotEntry>, t: seq<SlotEntry>, id: string)
    requires |s| == |t|
    requires forall j :: 0 <= j < |s| ==> (HasId(s[j], id) <==> HasId(t[j], id))
    ensures FindNote(s, id) == FindNote(t, id)
  {
  }

  /** Resizing to a new duration and then back to the old one restores the
      pattern (both durations non-zero, so neither is ignored). */
  lemma ResizeRoundTrip(p: SynthPattern, id: string, d: int)
    requires FirstSlotWith(p, id, 0).Some? && d != 0
    requires var i := FirstSlotWith(p, id, 0).value;
             p[i][FindNote(p[i], id).value].n.durationSteps != 0
    ensures var i := FirstSlotWith(p, id, 0).value;
            var prior := p[i][FindNote(p[i], id).value].n.durationSteps;
            Resized(Resized(p, id, Some(d)), id, Some(prior)) == p
  {
    var i := FirstSlotWith(p, id, 0).value;
    var k := FindNote(p[i], id).value;
    var n := p[i][k].n;
    var q := Resized(p, id, Some(d));
    ResizeOnlyDuration(p, id, Some(d));
    FindSameIds(p[i], q[i], id);
    forall j | 0 <= j < i
      ensures FindNote(q[j], id).None?
    {
    }
    assert FirstSlotWith(q, id, 0) == Some(i);
    assert q[i][k].n == n.(durationSteps := d);
    assert q[i][k := Note(n)] == p[i];
  }

  // -------------------------------------------------------------- delete

  /** The slot filter of delete: legacy names and notes with other ids stay. */
  function WithoutId(slot: seq<SlotEntry>, id: string): (r: seq<SlotEntry>)
    ensures forall j :: 0 <= j < |r| ==> !HasId(r[j], id)
    decreases |slot|
  {
    if |slot| == 0 then []
    else
      var n := |slot| - 1;
      WithoutId(slot[..n], id) + (if HasId(slot[n], id) then [] else [slot[n]])
  }

  /** The filter keeps every other entry with its multiplicity. */
  lemma {:induction false} WithoutIdKeeps(slot: seq<SlotEntry>, id: string, e: SlotEntry)
    ensures multiset(WithoutId(slot, id))[e] == if HasId(e, id) then 0 else multiset(slot)[e]
    decreases |slot|
  {
    if |slot| > 0 {
      var n := |slot| - 1;
      WithoutIdKeeps(slot[..n], id, e);
      assert slot == slot[..n] + [slot[n]];
      assert multiset(slot) == multiset(slot[..n]) + multiset{slot[n]};
    }
  }

  /** The pattern delete emits: every note record with the id is gone from
      every slot, and every other entry stays in its slot with its
      multiplicity. */
  function Deleted(p: SynthPattern, id: string): (q: SynthPattern)
    ensures |q| == |p|
    ensures forall i, j :: 0 <= i < |p| && 0 <= j < |q[i]| ==> !HasId(q[i][j], id)
  {
    seq(|p|, i requires 0 <= i < |p| => WithoutId(p[i], id))
  }

  /** Every entry other than the id's keeps its multiplicity in its slot. */
  lemma DeletedKeeps(p: SynthPattern, id: string)
    ensures forall i, e :: 0 <= i < |p| ==>
              multiset(Deleted(p, id)[i])[e] == if HasId(e, id) then 0 else multiset(p[i])[e]
  {
    forall i, e | 0 <= i < |p|
      ensures multiset(Deleted(p, id)[i])[e] == if HasId(e, id) then 0 else multiset(p[i])[e]
    {
      WithoutIdKeeps(p[i], id, e);
    }
  }

  lemma {:induction false} WithoutAbsent(slot: seq<SlotEntry>, id: string)
    requires forall j :: 0 <= j < |slot| ==> !HasId(slot[j], id)
    ensures WithoutId(slot, id) == slot
    decreases |slot|
  {
    if |slot| > 0 {
      var n := |slot| - 1;
      assert forall j :: 0 <= j < n ==> slot[..n][j] == slot[j];
      WithoutAbsent(slot[..n], id);
      assert !HasId(slot[n], id);
      assert WithoutId(slot, id) == slot[..n] + [slot[n]];
      assert slot == slot[..n] + [slot[n]];
    }
  }

  lemma {:induction false} SlotIdCountWithout(slot: seq<SlotEntry>, id: string, x: string)
    ensures SlotIdCount(WithoutId(slot, id), x) == if x == id then 0 else SlotIdCount(slot, x)
    decreases |slot|
  {
    if |slot| > 0 {
      var n := |slot| - 1;
      SlotIdCountWithout(slot[..n], id, x);
      if !HasId(slot[n], id) {
        SlotIdCountAppend(WithoutId(slot[..n], id), slot[n], x);
      } else {
        assert WithoutId(slot, id) == WithoutId(slot[..n], id);
      }
    }
  }

  /** After delete no note carries the id, and every other id keeps its tally;
      so delete keeps ids unique. */
  lemma {:induction false} DeleteIdCounts(p: SynthPattern, id: string, x: string)
    ensures IdCount(Deleted(p, id), x) == if x == id then 0 else IdCount(p, x)
    decreases |p|
  {
    if |p| > 0 {
      var n := |p| - 1;
      assert Deleted(p, id)[..n] == Deleted(p[..n], id);
      DeleteIdCounts(p[..n], id, x);
      SlotIdCountWithout(p[n], id, x);
    }
  }

  lemma DeleteKeepsUniqueIds(p: SynthPattern, id: string)
    requires UniqueIds(p)
    ensures UniqueIds(Deleted(p, id))
  {
    forall x ensures IdCount(Deleted(p, id), x) <= 1 {
      DeleteIdCounts(p, id, x);
    }
  }

  /** Deleting twice is deleting once, and deleting an id no note carries
      changes nothing. */
  lemma DeleteIdempotent(p: SynthPattern, id: string)
    ensures Deleted(Deleted(p, id), id) == Deleted(p, id)
    ensures (forall i, j :: 0 <= i < |p| && 0 <= j < |p[i]| ==> !HasId(p[i][j], id)) ==> Deleted(p, id) == p
  {
    var q := Deleted(p, id);
    forall i | 0 <= i < |p|
      ensures WithoutId(q[i], id) == q[i]
    {
      assert forall j :: 0 <= j < |q[i]| ==> !HasId(q[i][j], id);
      WithoutAbsent(q[i], id);
    }
    if forall i, j :: 0 <= i < |p| && 0 <= j < |p[i]| ==> !HasId(p[i][j], id) {
      forall i | 0 <= i < |p|
        ensures q[i] == p[i]
      {
        WithoutAbsent(p[i], id);
      }
    }
  }

  // ------------------------------------------------------------- effects

  /** `trackEffects[trackId] || []` */
  function EffectsOf(te: TrackEffects, t: TrackId): seq<EffectConfig> {
    if t in te then te[t] else []
  }

  predicate HasKind(effects: seq<EffectConfig>, k: EffectType) {
    exists j :: 0 <= j < |effects| && effects[j].kind == k
  }

  /** At most one effect of each kind. */
  predicate KindsUnique(effects: seq<EffectConfig>) {
    forall i, j :: 0 <= i < j < |effects| ==> effects[i].kind != effects[j].kind
  }

  datatype DropOutcome =
    | NoPayload                      // the drop carried no effect name
    | AlreadyPresent                 // rejected with an alert; nothing changes
    | Added(effects: TrackEffects)   // the new effect map

  /** Dropping an effect chip named `payload` on track t. */
  function DropEffect(te: TrackEffects, t: TrackId, payload: string, freshId: string): (r: DropOutcome)
    requires payload == "" || ParseEffectName(payload).Some?
    ensures r.NoPayload? <==> payload == ""
    ensures r.AlreadyPresent? <==> payload != "" && HasKind(EffectsOf(te, t), ParseEffectName(payload).value)
  {
    if payload == "" then NoPayload
    else
      var k := ParseEffectName(payload).value;
      var current := EffectsOf(te, t);
      if HasKind(current, k) then AlreadyPresent
      else Added(te[t := current + [EffectConfig(freshId, k, map[], true)]])
  }

  /** An accepted drop appends one enabled effect with empty parameters to
      that track only, and keeps kinds unique on it. */
  lemma DropAppends(te: TrackEffects, t: TrackId, payload: string, freshId: string)
    requires payload == "" || ParseEffectName(payload).Some?
    requires DropEffect(te, t, payload, freshId).Added?
    ensures var r := DropEffect(te, t, payload, freshId).effects;
            t in r
            && r[t] == EffectsOf(te, t) + [EffectConfig(freshId, ParseEffectName(payload).value, map[], true)]
            && (forall u :: u != t ==> EffectsOf(r, u) == EffectsOf(te, u))
            && (KindsUnique(EffectsOf(te, t)) ==> KindsUnique(r[t]))
  {
    var r: TrackEffects := DropEffect(te, t, payload, freshId).effects;
    var k := ParseEffectName(payload).value;
    if KindsUnique(EffectsOf(te, t)) {
      forall i, j | 0 <= i < j < |r[t]|
        ensures r[t][i].kind != r[t][j].kind
      {
        if j == |r[t]| - 1 {
          assert EffectsOf(te, t)[i].kind == r[t][i].kind;
        }
      }
    }
  }

  /** Dropping the same kind a second time on the same track is rejected. */
  lemma DropTwiceRejected(te: TrackEffects, t: TrackId, payload: string, id1: string, id2: string)
    requires payload == "" || ParseEffectName(payload).Some?
    requires DropEffect(te, t, payload, id1).Added?
    ensures DropEffect(DropEffect(te, t, payload, id1).effects, t, payload, id2).AlreadyPresent?
  {
    var r: TrackEffects := DropEffect(te, t, payload, id1).effects;
    var current := EffectsOf(te, t);
    assert r[t][|current|].kind == ParseEffectName(payload).value;
  }

  /** The list filter of remove: effects with other ids stay, in order. */
  function WithoutEffect(effects: seq<EffectConfig>, effectId: string): (r: seq<EffectConfig>)
    ensures forall c :: c in r <==> c in effects && c.id != effectId
    ensures KindsUnique(effects) ==> KindsUnique(r)
    decreases |effects|
  {
    if |effects| == 0 then []
    else
      var rest := WithoutEffect(effects[1..], effectId);
      assert effects == [effects[0]] + effects[1..];
      if effects[0].id == effectId then rest
      else
        assert KindsUnique(effects) ==> forall j :: 0 <= j < |rest| ==> rest[j].kind != effects[0].kind;
        [effects[0]] + rest
  }

  /** The filter works piecewise: filtering a concatenation filters each part
      and keeps the parts in order. */
  lemma {:induction false} WithoutEffectConcat(a: seq<EffectConfig>, b: seq<EffectConfig>, effectId: string)
    ensures WithoutEffect(a + b, effectId) == WithoutEffect(a, effectId) + WithoutEffect(b, effectId)
    decreases |a|
  {
    if |a| == 0 {
      assert a + b == b;
    } else {
      assert (a + b)[1..] == a[1..] + b;
      WithoutEffectConcat(a[1..], b, effectId);
    }
  }

  /** One effect survives the filter exactly when its id differs. */
  lemma WithoutEffectSingle(c: EffectConfig, effectId: string)
    ensures WithoutEffect([c], effectId) == if c.id == effectId then [] else [c]
  {
    assert [c][1..] == [];
  }

  /** Removing an effect by id from track t; the track's entry is written even
      when it held no list before. */
  function RemoveEffect(te: TrackEffects, t: TrackId, effectId: string): (r: TrackEffects)
    ensures r.Keys == te.Keys + {t}
    ensures forall u :: u in te && u != t ==> r[u] == te[u]
  {
    te[t := WithoutEffect(EffectsOf(te, t), effectId)]
  }

  /** Remove drops every effect with that id from track t, keeps the rest of
      that track's effects, leaves other tracks alone and keeps kinds unique. */
  lemma RemoveEffectSpec(te: TrackEffects, t: TrackId, effectId: string)
    ensures var r := RemoveEffect(te, t, effectId);
            t in r
            && (forall c :: c in r[t] <==> c in EffectsOf(te, t) && c.id != effectId)
            && (forall u :: u != t ==> EffectsOf(r, u) == EffectsOf(te, u))
            && (KindsUnique(EffectsOf(te, t)) ==> KindsUnique(r[t]))
  {
  }

  /** Removal keeps the order of track t's list: for any split of the list,
      the result is what survives of the front followed by what survives of
      the back, and an effect survives exactly when its id differs. */
  lemma RemoveEffectKeepsOrder(te: TrackEffects, t: TrackId, effectId: string, j: nat)
    requires j <= |EffectsOf(te, t)|
    ensures var cur := EffectsOf(te, t);
            RemoveEffect(te, t, effectId)[t] == WithoutEffect(cur[..j], effectId) + WithoutEffect(cur[j..], effectId)
  {
    var cur := EffectsOf(te, t);
    assert cur == cur[..j] + cur[j..];
    WithoutEffectConcat(cur[..j], cur[j..], effectId);
  }
}
