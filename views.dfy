/** The two editor views that change blocks directly: `update_position`,
    which reads the drag-and-drop order from the POSTed `positions` string,
    and `toggle_visible`. */
module Views {
  import opened Wrappers
  import opened Decimal
  import opened Tables

  // ---------------------------------------------------------------------
  // Parsing the positions string

  /** The separator of the jQuery UI `sortable("serialize")` string. */
  const Sep := "&cb[]="

  /** `s` holds the separator at index `k`. */
  predicate MatchAt(s: string, k: nat) {
    k + |Sep| <= |s| && s[k..k + |Sep|] == Sep
  }

  /** `s` nowhere holds the separator. */
  predicate NoSep(s: string) {
    forall k: nat :: k < |s| ==> !MatchAt(s, k)
  }

  /** `s.split("&cb[]=")`: cut at each leftmost non-overlapping separator. */
  function SplitOn(s: string): (r: seq<string>)
    ensures |r| >= 1
    decreases |s|
  {
    if |s| == 0 then [""]
    else if MatchAt(s, 0) then [""] + SplitOn(s[|Sep|..])
    else
      var rest := SplitOn(s[1..]);
      [[s[0]] + rest[0]] + rest[1..]
  }

  /** `f"&{positions}".split("&cb[]=")[1:]`. */
  function ParsePositions(positions: string): seq<string> {
    SplitOn("&" + positions)[1..]
  }

  /** `"&cb[]=".join(ids)`. */
  function JoinIds(ids: seq<string>): string
    requires |ids| >= 1
  {
    if |ids| == 1 then ids[0] else ids[0] + Sep + JoinIds(ids[1..])
  }

  /** A missing or empty positions string gives no ids. */
  lemma ParseEmpty()
    ensures ParsePositions("") == []
  {
    var s := "&";
    assert !MatchAt(s, 0);
    assert s[1..] == "" && SplitOn(s[1..]) == [""];
    assert SplitOn(s) == [[s[0]] + ""] + [];
  }

  /** A string without the separator is one piece. */
  lemma {:induction false} SplitNoSep(a: string)
    requires NoSep(a)
    ensures SplitOn(a) == [a]
    decreases |a|
  {
    if |a| > 0 {
      assert !MatchAt(a, 0);
      forall k: nat | k < |a[1..]| ensures !MatchAt(a[1..], k) {
        assert !MatchAt(a, k + 1);
        if k + |Sep| <= |a[1..]| {
          assert a[1..][k..k + |Sep|] == a[k + 1..k + 1 + |Sep|];
        }
      }
      SplitNoSep(a[1..]);
      assert [a[0]] + a[1..] == a;
    }
  }

  /** No separator starts inside a piece `a` that holds none: one that did
      would run into the separator after it, whose only `&` is its first
      character. */
  lemma NoCrossMatch(a: string, b: string)
    requires NoSep(a)
    ensures forall k: nat :: k < |a| ==> !MatchAt(a + Sep + b, k)
  {
    var s := a + Sep + b;
    forall k: nat | k < |a| ensures !MatchAt(s, k) {
      if k + |Sep| <= |a| {
        assert s[k..k + |Sep|] == a[k..k + |Sep|];
        assert !MatchAt(a, k);
      } else if k + |Sep| <= |s| {
        var j := |a| - k;
        assert s[k..k + |Sep|][j] == s[|a|] == '&';
        assert Sep[j] != '&';
      }
    }
  }

  /** The piece before the first separator is split off whole. */
  lemma {:induction false} SplitAfterPiece(a: string, b: string)
    requires forall k: nat :: k < |a| ==> !MatchAt(a + Sep + b, k)
    ensures SplitOn(a + Sep + b) == [a] + SplitOn(b)
    decreases |a|
  {
    var s := a + Sep + b;
    if |a| == 0 {
      assert s == Sep + b && s[..|Sep|] == Sep && s[|Sep|..] == b;
      assert MatchAt(s, 0);
    } else {
      assert !MatchAt(s, 0);
      assert s[1..] == a[1..] + Sep + b;
      forall k: nat | k < |a[1..]| ensures !MatchAt(a[1..] + Sep + b, k) {
        assert !MatchAt(s, k + 1);
        if k + |Sep| <= |s[1..]| {
          assert s[1..][k..k + |Sep|] == s[k + 1..k + 1 + |Sep|];
        }
      }
      SplitAfterPiece(a[1..], b);
      assert [a[0]] + a[1..] == a;
    }
  }

  /** Splitting the joined ids gives the ids back when none holds the
      separator. */
  lemma {:induction false} SplitJoin(ids: seq<string>)
    requires |ids| >= 1 && forall i :: 0 <= i < |ids| ==> NoSep(ids[i])
    ensures SplitOn(JoinIds(ids)) == ids
    decreases |ids|
  {
    if |ids| == 1 {
      SplitNoSep(ids[0]);
    } else {
      NoCrossMatch(ids[0], JoinIds(ids[1..]));
      SplitAfterPiece(ids[0], JoinIds(ids[1..]));
      SplitJoin(ids[1..]);
      assert [ids[0]] + ids[1..] == ids;
    }
  }

  /** The string the editor posts, `"cb[]=" + "&cb[]=".join(ids)`, parses to
      the ids in order. */
  lemma ParseSerialized(ids: seq<string>)
    requires |ids| >= 1 && forall i :: 0 <= i < |ids| ==> NoSep(ids[i])
    ensures ParsePositions("cb[]=" + JoinIds(ids)) == ids
  {
    var j := JoinIds(ids);
    SplitJoin(ids);
    PrefixedIsSep(j);
    SplitAfterSep(j);
  }

  lemma PrefixedIsSep(j: string)
    ensures "&" + ("cb[]=" + j) == Sep + j
  {
  }

  lemma SplitAfterSep(j: string)
    ensures SplitOn(Sep + j) == [""] + SplitOn(j)
  {
    assert Sep + j == "" + Sep + j;
    SplitAfterPiece("", j);
  }

  // ---------------------------------------------------------------------
  // The update loop

  /** `filter(id=s)` converts `s` with `int()`: a numeral of digits, maybe
      after a minus sign, is an id (a negative one matches no row); anything
      else raises `ValueError`. */
  function ToPk(s: string): Result<int> {
    if |s| > 0 && AllDigits(s) then Ok(ParseDigits(s))
    else if |s| > 1 && s[0] == '-' && AllDigits(s[1..]) then Ok(0 - ParseDigits(s[1..]))
    else Err(ValueError)
  }

  /** `ContentBlock.objects.filter(id=k).update(position=i)`. */
  function SetPosition(t: Tables, k: int, i: nat): (r: Tables)
    ensures r.blocks.Keys == t.blocks.Keys
  {
    if k >= 0 && k in t.blocks then t.(blocks := t.blocks[k := t.blocks[k].(position := i)]) else t
  }

  /** The rows after the loop, and the error that ended it, if any: the
      updates made before a `ValueError` stay, as the view runs outside a
      transaction. */
  datatype Updated = Updated(t: Tables, error: Option<Error>)

  function ApplyPositions(t: Tables, ids: seq<string>): Updated {
    if |ids| == 0 then Updated(t, None)
    else
      var u := ApplyPositions(t, ids[..|ids| - 1]);
      if u.error.Some? then u
      else match ToPk(ids[|ids| - 1])
        case Err(e) => Updated(u.t, Some(e))
        case Ok(k) => Updated(SetPosition(u.t, k, |ids| - 1), None)
  }

  /** `update_position`. */
  method UpdatePosition(t: Tables, positions: string) returns (r: Updated)
    ensures r == ApplyPositions(t, ParsePositions(positions))
  {
    var ids := ParsePositions(positions);
    r := Updated(t, None);
    var i := 0;
    while i < |ids| && r.error.None?
      invariant 0 <= i <= |ids|
      invariant r == ApplyPositions(t, ids[..i])
      invariant r.error.Some? ==> ApplyPositions(t, ids) == r
      decreases |ids| - i
    {
      assert ids[..i + 1][..i] == ids[..i];
      var pk := ToPk(ids[i]);
      if pk.Err? {
        r := Updated(r.t, Some(pk.error));
      } else {
        r := Updated(SetPosition(r.t, pk.value, i), None);
      }
      i := i + 1;
      if r.error.Some? {
        ErrorStays(t, ids, i);
      }
    }
    assert i == |ids| ==> ids[..i] == ids;
  }

  lemma {:induction false} ErrorStays(t: Tables, ids: seq<string>, i: nat)
    requires i <= |ids| && ApplyPositions(t, ids[..i]).error.Some?
    ensures ApplyPositions(t, ids) == ApplyPositions(t, ids[..i])
    decreases |ids| - i
  {
    if i < |ids| {
      assert ids[..i + 1][..i] == ids[..i];
      ErrorStays(t, ids, i + 1);
    } else {
      assert ids[..i] == ids;
    }
  }

  /** The last index at which `ids` names block `c`. */
  function LastIndex(ids: seq<string>, c: nat): (r: Option<nat>)
    ensures r.Some? ==>
      && r.value < |ids| && ToPk(ids[r.value]) == Ok(c)
      && forall j :: r.value < j < |ids| ==> ToPk(ids[j]) != Ok(c)
    ensures r.None? ==> forall j :: 0 <= j < |ids| ==> ToPk(ids[j]) != Ok(c)
  {
    if |ids| == 0 then None
    else if ToPk(ids[|ids| - 1]) == Ok(c) then Some(|ids| - 1)
    else LastIndex(ids[..|ids| - 1], c)
  }

  /** The position block `c` ends with: the last index naming it, or its
      old position. */
  function FinalPosition(t: Tables, ids: seq<string>, c: nat): nat
    requires c in t.blocks
  {
    match LastIndex(ids, c)
    case Some(i) => i
    case None => t.blocks[c].position
  }

  /** `r` is `t` with each block at its final position for `ids`. */
  ghost predicate Positioned(t: Tables, r: Tables, ids: seq<string>) {
    && r == t.(blocks := r.blocks)
    && r.blocks.Keys == t.blocks.Keys
    && forall c :: c in t.blocks ==> r.blocks[c] == t.blocks[c].(position := FinalPosition(t, ids, c))
  }

  lemma PositionedStep(t: Tables, u: Tables, ids: seq<string>, k: int)
    requires |ids| > 0 && ToPk(ids[|ids| - 1]) == Ok(k)
    requires Positioned(t, u, ids[..|ids| - 1])
    ensures Positioned(t, SetPosition(u, k, |ids| - 1), ids)
  {
    var pre := ids[..|ids| - 1];
    var r := SetPosition(u, k, |ids| - 1);
    assert r == u.(blocks := r.blocks);
    forall c | c in t.blocks ensures r.blocks[c] == t.blocks[c].(position := FinalPosition(t, ids, c)) {
      if k == c {
        assert LastIndex(ids, c) == Some(|ids| - 1);
        assert r.blocks[c] == u.blocks[c].(position := |ids| - 1);
      } else {
        assert LastIndex(ids, c) == LastIndex(pre, c);
        assert r.blocks[c] == u.blocks[c];
      }
    }
  }

  /** When every id converts, each block named in the list ends at the last
      index that names it, every other block keeps its position, unknown
      ids change nothing, and no other column or table changes. */
  lemma {:induction false} PositionsApplied(t: Tables, ids: seq<string>)
    requires forall i :: 0 <= i < |ids| ==> ToPk(ids[i]).Ok?
    ensures ApplyPositions(t, ids).error.None?
    ensures Positioned(t, ApplyPositions(t, ids).t, ids)
  {
    if |ids| > 0 {
      var pre := ids[..|ids| - 1];
      PositionsApplied(t, pre);
      PositionedStep(t, ApplyPositions(t, pre).t, ids, ToPk(ids[|ids| - 1]).value);
    } else {
      assert t.(blocks := t.blocks) == t;
    }
  }

  /** Changing positions keeps the rows consistent. */
  lemma PositionsValid(t: Tables, ids: seq<string>)
    requires Valid(t)
    ensures Valid(ApplyPositions(t, ids).t)
  {
    if |ids| > 0 {
      PositionsValid(t, ids[..|ids| - 1]);
    }
  }

  /** The first id that does not convert ends the loop with `ValueError`;
      the ids before it have been applied. */
  lemma {:induction false} PositionsFail(t: Tables, ids: seq<string>, j: nat)
    requires j < |ids| && ToPk(ids[j]).Err?
    requires forall i :: 0 <= i < j ==> ToPk(ids[i]).Ok?
    ensures ApplyPositions(t, ids) == Updated(ApplyPositions(t, ids[..j]).t, Some(ValueError))
  {
    PositionsApplied(t, ids[..j]);
    assert ids[..j + 1][..j] == ids[..j];
    ErrorStays(t, ids, j + 1);
  }

  // ---------------------------------------------------------------------
  // toggle_visible

  /** `toggle_visible`: `objects.get(id=...)` raises `DoesNotExist` for an
      unknown id; otherwise `visible` is negated. */
  function ToggleVisible(t: Tables, id: nat): (r: Result<Tables>)
    ensures r.Err? <==> id !in t.blocks
    ensures r.Ok? ==> r.value == t.(blocks := t.blocks[id := t.blocks[id].(visible := !t.blocks[id].visible)])
    ensures r.Ok? ==> id in r.value.blocks && r.value.blocks[id].visible == !t.blocks[id].visible
  {
    if id !in t.blocks then Err(DoesNotExist)
    else Ok(t.(blocks := t.blocks[id := t.blocks[id].(visible := !t.blocks[id].visible)]))
  }

  /** Two toggles restore the rows. */
  lemma ToggleTwice(t: Tables, id: nat)
    requires id in t.blocks
    ensures ToggleVisible(ToggleVisible(t, id).value, id) == Ok(t)
  {
    var b := t.blocks[id];
    assert b.(visible := !b.visible).(visible := b.visible) == b;
    assert t.blocks[id := b.(visible := !b.visible)][id := b] == t.blocks;
  }

  /** A toggle keeps the rows consistent. */
  lemma ToggleValid(t: Tables, id: nat)
    requires Valid(t) && id in t.blocks
    ensures Valid(ToggleVisible(t, id).value)
  {
  }
}
