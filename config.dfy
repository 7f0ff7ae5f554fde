/**
 * The `admin_ids` property of the settings object (config.py): the
 * ADMIN_IDS environment value is a comma-separated list of Telegram user ids.
 */
module Config {
  import opened Wrappers
  import opened Text

  /**
   * `[x.strip() for x in pieces if x.strip()]`: every piece stripped, the
   * blank ones dropped, order and repetitions kept.
   */
  function Kept(pieces: seq<string>): (r: seq<string>)
    ensures |r| <= |pieces|
    ensures forall i :: 0 <= i < |r| ==> r[i] != []
  {
    if pieces == [] then []
    else
      var head := Strip(pieces[0]);
      var rest := Kept(pieces[1..]);
      if head == [] then rest else [head] + rest
  }

  /**
   * `list(map(parse, pieces))` with parse = int: the values in order, or
   * the first piece parse rejects (int() raises ValueError on it).
   */
  function ParseAll(pieces: seq<string>, parse: string -> Option<int>): (r: Result<seq<int>, string>)
    ensures r.Ok? ==> |r.value| == |pieces|
    ensures r.Ok? ==> forall i :: 0 <= i < |pieces| ==> parse(pieces[i]) == Some(r.value[i])
    ensures r.Err? ==> r.error in pieces && parse(r.error).None?
    ensures (forall i :: 0 <= i < |pieces| ==> parse(pieces[i]).Some?) ==> r.Ok?
  {
    if pieces == [] then Ok([])
    else
      var first := parse(pieces[0]);
      var rest := ParseAll(pieces[1..], parse);
      assert forall i :: 1 <= i < |pieces| ==> pieces[i] == pieces[1..][i - 1];
      if first.None? then Err(pieces[0])
      else if rest.Err? then Err(rest.error)
      else Ok([first.value] + rest.value)
  }

  /**
   * Config.admin_ids: an unset, empty or whitespace-only ADMIN_IDS gives no
   * ids; otherwise the stripped non-blank comma-separated pieces, each
   * converted with int().
   */
  function AdminIds(raw: Option<string>): (r: Result<seq<int>, string>)
    ensures raw.None? ==> r == Ok([])
    ensures r.Ok? && raw.Some? && Strip(raw.value) != [] ==> |r.value| == |Kept(Split(raw.value, ','))|
    ensures r.Err? ==> raw.Some? && r.error in Kept(Split(raw.value, ',')) && ParseInt(r.error).None?
  {
    if raw.None? || raw.value == [] || Strip(raw.value) == [] then Ok([])
    else ParseAll(Kept(Split(raw.value, ',')), ParseInt)
  }

  /** No value, an empty value or a whitespace-only value yields the empty list. */
  lemma AdminIdsBlank(raw: Option<string>)
    requires raw.None? || IsBlank(raw.value)
    ensures AdminIds(raw) == Ok([])
  {
    if raw.Some? {
      StripEmptyIffBlank(raw.value);
    }
  }

  /**
   * The early return for a blank value only saves work: the comprehension
   * alone would also keep no piece of it.
   */
  lemma BlankGuardRedundant(s: string)
    requires IsBlank(s)
    ensures Kept(Split(s, ',')) == []
  {
    assert ',' !in s;
    SplitWhole(s, ',');
    StripEmptyIffBlank(s);
    var pieces := [s];
    assert pieces[1..] == [];
    assert Kept(pieces) == Kept(pieces[1..]);
  }

  /** How many pieces are not blank. */
  function NonBlankCount(pieces: seq<string>): nat {
    if pieces == [] then 0 else (if Strip(pieces[0]) == [] then 0 else 1) + NonBlankCount(pieces[1..])
  }

  /** The comprehension keeps exactly one stripped piece per non-blank piece. */
  lemma {:induction false} KeptLength(pieces: seq<string>)
    ensures |Kept(pieces)| == NonBlankCount(pieces)
  {
    if pieces != [] {
      KeptLength(pieces[1..]);
    }
  }

  /**
   * A non-blank ADMIN_IDS gives one id per non-blank piece, in order, when
   * every kept piece is an integer literal, and fails exactly when one is not.
   */
  lemma AdminIdsOutcome(raw: string)
    requires !IsBlank(raw)
    ensures AdminIds(Some(raw)).Ok? <==> forall i :: 0 <= i < |Kept(Split(raw, ','))| ==> ParseInt(Kept(Split(raw, ','))[i]).Some?
    ensures AdminIds(Some(raw)).Ok? ==> |AdminIds(Some(raw)).value| == |Kept(Split(raw, ','))| == NonBlankCount(Split(raw, ','))
    ensures AdminIds(Some(raw)).Ok? ==>
      forall i :: 0 <= i < |Kept(Split(raw, ','))| ==> ParseInt(Kept(Split(raw, ','))[i]) == Some(AdminIds(Some(raw)).value[i])
  {
    var pieces := Split(raw, ',');
    AdminIdsParses(raw);
    KeptLength(pieces);
  }

  /** A value that is not blank is parsed piece by piece. */
  lemma AdminIdsParses(raw: string)
    requires !IsBlank(raw)
    ensures AdminIds(Some(raw)) == ParseAll(Kept(Split(raw, ',')), ParseInt)
  {
    StripEmptyIffBlank(raw);
  }

  /** The ids written out with str() and joined with commas. */
  function Written(ids: seq<int>): (parts: seq<string>)
    ensures |parts| == |ids|
    ensures forall i :: 0 <= i < |ids| ==> parts[i] == ShowInt(ids[i])
  {
    if ids == [] then [] else [ShowInt(ids[0])] + Written(ids[1..])
  }

  /**
   * Ids written with str() and joined with ',' are read back as the same
   * list: in the same order and with repetitions kept.
   */
  lemma AdminIdsRoundTrip(ids: seq<int>)
    requires |ids| >= 1
    ensures AdminIds(Some(Join(Written(ids), ','))) == Ok(ids)
  {
    var parts := Written(ids);
    var raw := Join(parts, ',');
    forall i | 0 <= i < |parts|
      ensures ',' !in parts[i] && parts[i] != [] && Strip(parts[i]) == parts[i]
      ensures ParseInt(parts[i]) == Some(ids[i])
    {
      ShowIntShape(ids[i]);
      ParseShowInt(ids[i]);
    }
    SplitJoin(parts, ',');
    KeptStripped(parts);
    JoinStartsWithFirst(parts, ',');
    ShowIntShape(ids[0]);
    StripEmptyIffBlank(raw);
    assert Strip(raw) != [];
    var r := ParseAll(parts, ParseInt);
    assert r.Ok?;
    assert r.value == ids;
  }

  /** Pieces that are already stripped and non-blank are all kept, unchanged. */
  lemma {:induction false} KeptStripped(pieces: seq<string>)
    requires forall i :: 0 <= i < |pieces| ==> pieces[i] != [] && Strip(pieces[i]) == pieces[i]
    ensures Kept(pieces) == pieces
  {
    if pieces != [] {
      var head, rest := pieces[0], pieces[1..];
      assert Strip(head) == head && head != [];
      assert forall i :: 0 <= i < |rest| ==> rest[i] != [] && Strip(rest[i]) == rest[i] by {
        forall i | 0 <= i < |rest| ensures rest[i] != [] && Strip(rest[i]) == rest[i] {
          assert rest[i] == pieces[i + 1];
        }
      }
      KeptStripped(rest);
      KeptCons(head, rest);
      assert [head] + rest == pieces;
    }
  }

  /** The comprehension works piece by piece: kept pieces of a concatenation are concatenated. */
  lemma {:induction false} KeptAppend(a: seq<string>, b: seq<string>)
    ensures Kept(a + b) == Kept(a) + Kept(b)
  {
    if a == [] {
      assert a + b == b;
    } else {
      var head, rest := a[0], a[1..];
      var kept := if Strip(head) == [] then [] else [Strip(head)];
      assert a == [head] + rest;
      assert a + b == [head] + (rest + b);
      KeptAppend(rest, b);
      calc {
        Kept(a + b);
        { KeptCons(head, rest + b); }
        kept + Kept(rest + b);
        kept + (Kept(rest) + Kept(b));
        (kept + Kept(rest)) + Kept(b);
        { KeptCons(head, rest); }
        Kept(a) + Kept(b);
      }
    }
  }

  /** One piece is kept, stripped, exactly when it is not blank. */
  lemma KeptOne(piece: string)
    ensures Kept([piece]) == if Strip(piece) == [] then [] else [Strip(piece)]
  {
    KeptCons(piece, []);
    assert [piece] + [] == [piece];
  }

  /** Kept pieces are kept as they are: applying the comprehension again changes nothing. */
  lemma {:induction false} KeptIdempotent(pieces: seq<string>)
    ensures Kept(Kept(pieces)) == Kept(pieces)
  {
    if pieces != [] {
      var head, rest := pieces[0], pieces[1..];
      KeptIdempotent(rest);
      assert [head] + rest == pieces;
      KeptCons(head, rest);
      if Strip(head) != [] {
        StripIdempotent(head);
        KeptCons(Strip(head), Kept(rest));
      }
    }
  }

  /** The joined text starts with the first piece. */
  lemma {:induction false} JoinStartsWithFirst(parts: seq<string>, sep: char)
    requires |parts| >= 1 && parts[0] != []
    ensures Join(parts, sep) != [] && Join(parts, sep)[0] == parts[0][0]
  {
  }

  /** Kept, one piece at a time. */
  lemma KeptCons(head: string, rest: seq<string>)
    ensures Kept([head] + rest) == (if Strip(head) == [] then Kept(rest) else [Strip(head)] + Kept(rest))
  {
    assert ([head] + rest)[1..] == rest;
  }

  /** A concrete value: blank pieces and the trailing comma are dropped. */
  lemma AdminIdsExample(raw: string)
    requires raw == "1, ,2,"
    ensures AdminIds(Some(raw)) == Ok([1, 2])
  {
    assert !IsSpace(raw[0]);
    AdminIdsParses(raw);
    var pieces := ExampleSplit(raw);
    ExampleKept();
    ExampleParse(["1", "2"]);
  }

  lemma ExampleParse(pieces: seq<string>)
    requires pieces == ["1", "2"]
    ensures ParseAll(pieces, ParseInt) == Ok([1, 2])
  {
    StripDigitChar("1");
    StripDigitChar("2");
    assert ParseInt(pieces[0]) == Some(1) && ParseInt(pieces[1]) == Some(2);
    var r := ParseAll(pieces, ParseInt);
    assert r.Ok? && |r.value| == 2;
    assert r.value[0] == 1 && r.value[1] == 2;
    assert r.value == [1, 2];
  }

  lemma ExampleSplit(raw: string) returns (pieces: seq<string>)
    requires raw == "1, ,2,"
    ensures pieces == ["1", " ", "2", ""] && Split(raw, ',') == pieces
  {
    assert raw == "1" + [','] + (" " + [','] + ("2" + [','] + ""));
    SplitWhole("", ',');
    SplitAfterPiece("2", "", ',');
    SplitAfterPiece(" ", "2" + [','] + "", ',');
    SplitAfterPiece("1", " " + [','] + ("2" + [','] + ""), ',');
    pieces := ["1", " ", "2", ""];
  }

  lemma ExampleKept()
    ensures Kept(["1", " ", "2", ""]) == ["1", "2"]
  {
    StripSpaceChar(" ");
    StripDigitChar("1");
    StripDigitChar("2");
    KeptFour("1", " ", "2", "");
  }

  /** Four pieces, the second and the fourth blank, the others already stripped. */
  lemma KeptFour(a: string, b: string, c: string, d: string)
    requires a != [] && Strip(a) == a && Strip(b) == [] && c != [] && Strip(c) == c && Strip(d) == []
    ensures Kept([a, b, c, d]) == [a, c]
  {
    var p3: seq<string> := [d];
    var p2 := [c] + p3;
    var p1 := [b] + p2;
    var p0 := [a] + p1;
    assert p0 == [a, b, c, d];
    assert Kept(p3) == [] by {
      KeptCons(d, []);
      assert [d] + [] == p3;
    }
    KeptCons(c, p3);
    KeptCons(b, p2);
    KeptCons(a, p1);
  }
}
