/** The comma-separated whitelist and blacklist settings (connector/importer.py,
    lines 20-21): `[w.strip() for w in (s or "").split(",") if w.strip()]`. */
module TagLists {
  import opened Common

  /** Python's `str.isspace()` for one character: the characters `str.strip()` removes. */
  predicate IsSpace(c: char)
  {
    c == ' ' || ('\t' <= c <= '\r') || ('\U{1C}' <= c <= '\U{1F}')
    || c == '\U{85}' || c == '\U{A0}' || c == '\U{1680}'
    || ('\U{2000}' <= c <= '\U{200A}') || c == '\U{2028}' || c == '\U{2029}'
    || c == '\U{202F}' || c == '\U{205F}' || c == '\U{3000}'
  }

  /** `s.lstrip()`: the suffix of `s` left after dropping leading whitespace. */
  function TrimStart(s: string): (r: string)
    ensures |r| <= |s| && r == s[|s| - |r|..]
    ensures forall i :: 0 <= i < |s| - |r| ==> IsSpace(s[i])
    ensures r == [] || !IsSpace(r[0])
    decreases |s|
  {
    if |s| > 0 && IsSpace(s[0]) then TrimStart(s[1..]) else s
  }

  /** `s.rstrip()`: the prefix of `s` left after dropping trailing whitespace. */
  function TrimEnd(s: string): (r: string)
    ensures |r| <= |s| && r == s[..|r|]
    ensures forall i :: |r| <= i < |s| ==> IsSpace(s[i])
    ensures r == [] || !IsSpace(r[|r| - 1])
    decreases |s|
  {
    if |s| > 0 && IsSpace(s[|s| - 1]) then TrimEnd(s[..|s| - 1]) else s
  }

  /** `s.strip()`: a piece of `s` that neither starts nor ends with whitespace;
      `StripSlice` states which piece. */
  function Strip(s: string): (r: string)
    ensures forall c :: c in r ==> c in s
    ensures r == [] || (!IsSpace(r[0]) && !IsSpace(r[|r| - 1]))
  {
    var t := TrimStart(s);
    var u := TrimEnd(t);
    assert u == [] || u[0] == t[0];
    forall c | c in u
      ensures c in s
    {
      var i :| 0 <= i < |u| && u[i] == c;
      assert t[i] == c;
      assert s[|s| - |t| + i] == c;
    }
    u
  }

  /** Every character of `t` is whitespace. */
  predicate AllSpace(t: string)
  {
    forall c :: c in t ==> IsSpace(c)
  }

  /** `r` is the slice of `s` that starts at `a` and leaves only whitespace on either side. */
  predicate TrimmedAt(s: string, a: int, r: string)
  {
    && 0 <= a <= |s| - |r| && r == s[a..a + |r|]
    && AllSpace(s[..a]) && AllSpace(s[a + |r|..])
  }

  /** `strip()` removes exactly the leading and the trailing whitespace: what is left is
      the contiguous middle of the input. */
  lemma {:induction false} StripSlice(s: string)
    ensures TrimmedAt(s, |s| - |TrimStart(s)|, Strip(s))
  {
    var t := TrimStart(s);
    var u := TrimEnd(t);
    assert Strip(s) == u;
    SliceOfTrims(s, t, u);
  }

  /** A suffix `t` of `s` after leading whitespace, cut to a prefix `u` before trailing
      whitespace, is a whitespace-bounded slice of `s`. */
  lemma SliceOfTrims(s: string, t: string, u: string)
    requires |t| <= |s| && t == s[|s| - |t|..]
    requires forall i :: 0 <= i < |s| - |t| ==> IsSpace(s[i])
    requires |u| <= |t| && u == t[..|u|]
    requires forall i :: |u| <= i < |t| ==> IsSpace(t[i])
    ensures TrimmedAt(s, |s| - |t|, u)
  {
    var a := |s| - |t|;
    assert u == s[a..a + |u|];
    LeadingSpace(s, a);
    forall i | a + |u| <= i < |s|
      ensures IsSpace(s[i])
    {
      assert s[i] == t[i - a];
    }
    TrailingSpace(s, a + |u|);
  }

  lemma LeadingSpace(s: string, n: int)
    requires 0 <= n <= |s|
    requires forall i :: 0 <= i < n ==> IsSpace(s[i])
    ensures AllSpace(s[..n])
  {
    forall c | c in s[..n]
      ensures IsSpace(c)
    {
      var i :| 0 <= i < n && s[..n][i] == c;
    }
  }

  lemma TrailingSpace(s: string, n: int)
    requires 0 <= n <= |s|
    requires forall i :: n <= i < |s| ==> IsSpace(s[i])
    ensures AllSpace(s[n..])
  {
    forall c | c in s[n..]
      ensures IsSpace(c)
    {
      var i :| 0 <= i < |s| - n && s[n..][i] == c;
      assert s[n + i] == c;
    }
  }

  /** The slice `StripSlice` describes is the only one: any whitespace-bounded slice of
      `s` that neither starts nor ends with whitespace is `Strip(s)`. */
  lemma {:induction false} StripUnique(s: string, a: int, r: string)
    requires TrimmedAt(s, a, r)
    requires r == [] || (!IsSpace(r[0]) && !IsSpace(r[|r| - 1]))
    ensures r == Strip(s)
  {
    StripSlice(s);
    var b := |s| - |TrimStart(s)|;
    var u := Strip(s);
    if r != [] && u != [] {
      assert s[a] == r[0] && s[b] == u[0];
      assert a == b;
      assert s[a + |r| - 1] == r[|r| - 1] && s[b + |u| - 1] == u[|u| - 1];
    }
  }

  /** Stripping twice is stripping once. */
  lemma StripIdempotent(s: string)
    ensures Strip(Strip(s)) == Strip(s)
  {
    var u := Strip(s);
    assert TrimStart(u) == u;
    assert TrimEnd(u) == u;
  }

  /** `",".join(pieces)` */
  function Join(pieces: seq<string>): string
    decreases |pieces|
  {
    if |pieces| == 0 then ""
    else if |pieces| == 1 then pieces[0]
    else pieces[0] + "," + Join(pieces[1..])
  }

  /** `s.split(",")`: the pieces between commas, empty ones included; never empty. */
  function Split(s: string): (pieces: seq<string>)
    ensures |pieces| >= 1
    ensures forall k :: 0 <= k < |pieces| ==> ',' !in pieces[k]
    ensures Join(pieces) == s
    decreases |s|
  {
    if |s| == 0 then [""]
    else
      var rest := Split(s[1..]);
      if s[0] == ',' then
        assert ([""] + rest)[1..] == rest;
        [""] + rest
      else
        var pieces := [[s[0]] + rest[0]] + rest[1..];
        assert pieces[1..] == rest[1..];
        assert |rest| > 1 ==> Join(rest) == rest[0] + "," + Join(rest[1..]);
        assert s == [s[0]] + s[1..];
        pieces
  }

  lemma {:induction false} SplitNoComma(a: string)
    requires ',' !in a
    ensures Split(a) == [a]
    decreases |a|
  {
    if |a| > 0 {
      SplitNoComma(a[1..]);
      assert [a[0]] + a[1..] == a;
    }
  }

  lemma {:induction false} SplitAfterComma(a: string, b: string)
    requires ',' !in a
    ensures Split(a + "," + b) == [a] + Split(b)
    decreases |a|
  {
    if |a| == 0 {
      assert (a + "," + b)[1..] == b;
    } else {
      assert (a + "," + b)[1..] == a[1..] + "," + b;
      SplitAfterComma(a[1..], b);
      assert [a[0]] + a[1..] == a;
    }
  }

  /** Splitting a comma-joined list of comma-free pieces gives the pieces back. */
  lemma {:induction false} SplitJoin(pieces: seq<string>)
    requires |pieces| >= 1
    requires forall k :: 0 <= k < |pieces| ==> ',' !in pieces[k]
    ensures Split(Join(pieces)) == pieces
    decreases |pieces|
  {
    if |pieces| == 1 {
      SplitNoComma(pieces[0]);
    } else {
      SplitJoin(pieces[1..]);
      SplitAfterComma(pieces[0], Join(pieces[1..]));
      assert [pieces[0]] + pieces[1..] == pieces;
    }
  }

  /** Keep a piece, stripped, when something is left of it. */
  function PickTag(piece: string): Option<string>
  {
    var t := Strip(piece);
    if t != "" then Some(t) else None
  }

  /** What `PickTag` keeps of a comma-free piece is non-empty, comma-free and stripped. */
  lemma PickTagClean(piece: string)
    requires ',' !in piece
    ensures PickTag(piece).Some? ==>
              var t := PickTag(piece).value; t != "" && ',' !in t && Strip(t) == t
  {
    StripIdempotent(piece);
  }

  /** The parsed whitelist or blacklist, `[w.strip() for w in (s or "").split(",") if w.strip()]`.
      Every entry is non-empty, stripped and comma-free; `ParseTagListPieces` states
      which pieces they are. */
  function ParseTagList(setting: Option<string>): (entries: seq<string>)
    ensures forall k :: 0 <= k < |entries| ==>
              entries[k] != "" && ',' !in entries[k] && Strip(entries[k]) == entries[k]
  {
    var pieces := Split(OrStr(setting, ""));
    PickTagsOf(pieces);
    FilterMap(pieces, PickTag)
  }

  /** The entries are the comma-separated pieces of the setting, stripped, with the
      pieces that strip to nothing dropped, in their original order. */
  lemma ParseTagListPieces(setting: Option<string>)
    ensures var pieces := Split(OrStr(setting, ""));
            var entries, idx := ParseTagList(setting), KeptIndices(pieces, PickTag);
            && |entries| == |idx|
            && (forall k :: 0 <= k < |idx| ==> entries[k] == Strip(pieces[idx[k]]))
            && (forall j :: 0 <= j < |pieces| ==> (j in idx <==> Strip(pieces[j]) != ""))
  {
    PickTagsOf(Split(OrStr(setting, "")));
  }

  /** What the comprehension keeps of comma-free pieces: the k-th entry is the k-th
      piece that strips to something, stripped, and is itself clean. */
  lemma PickTagsOf(pieces: seq<string>)
    requires forall k :: 0 <= k < |pieces| ==> ',' !in pieces[k]
    ensures var entries, idx := FilterMap(pieces, PickTag), KeptIndices(pieces, PickTag);
            && |entries| == |idx|
            && (forall k :: 0 <= k < |idx| ==> entries[k] == Strip(pieces[idx[k]]))
            && (forall j :: 0 <= j < |pieces| ==> (j in idx <==> Strip(pieces[j]) != ""))
            && (forall k :: 0 <= k < |entries| ==>
                  entries[k] != "" && ',' !in entries[k] && Strip(entries[k]) == entries[k])
  {
    FilterMapAt(pieces, PickTag);
    var idx := KeptIndices(pieces, PickTag);
    forall k | 0 <= k < |idx|
      ensures var t := PickTag(pieces[idx[k]]).value; t != "" && ',' !in t && Strip(t) == t
    {
      PickTagClean(pieces[idx[k]]);
    }
    forall j | 0 <= j < |pieces| && j in idx
      ensures Strip(pieces[j]) != ""
    {
      var k :| 0 <= k < |idx| && idx[k] == j;
    }
  }

  /** A list written out with commas parses back to itself, when its entries are
      non-empty, stripped and comma-free. */
  lemma ParseTagListRoundTrip(entries: seq<string>)
    requires forall k :: 0 <= k < |entries| ==>
               entries[k] != "" && ',' !in entries[k] && Strip(entries[k]) == entries[k]
    ensures ParseTagList(Some(Join(entries))) == entries
  {
    if |entries| == 0 {
      ParseTagListUnset();
    } else {
      CleanPiecesRoundTrip(entries);
      ParseTagListUnfold(Join(entries));
    }
  }

  /** Splitting clean entries joined with commas and keeping what `PickTag` keeps gives
      the entries back. */
  lemma CleanPiecesRoundTrip(entries: seq<string>)
    requires |entries| >= 1
    requires forall k :: 0 <= k < |entries| ==>
               entries[k] != "" && ',' !in entries[k] && Strip(entries[k]) == entries[k]
    ensures FilterMap(Split(Join(entries)), PickTag) == entries
  {
    SplitJoin(entries);
    KeepsCleanEntries(entries);
  }

  /** `PickTag` keeps every clean entry as it is. */
  lemma KeepsCleanEntries(entries: seq<string>)
    requires forall k :: 0 <= k < |entries| ==>
               entries[k] != "" && ',' !in entries[k] && Strip(entries[k]) == entries[k]
    ensures FilterMap(entries, PickTag) == entries
  {
    forall i | 0 <= i < |entries|
      ensures PickTag(entries[i]) == Some(entries[i])
    {
      var e := entries[i];
      assert Strip(e) == e && e != "";
    }
    FilterMapKeepsAll(entries, PickTag);
    var r := FilterMap(entries, PickTag);
    assert forall i :: 0 <= i < |entries| ==> r[i] == entries[i];
  }

  lemma ParseTagListUnfold(s: string)
    ensures ParseTagList(Some(s)) == FilterMap(Split(s), PickTag)
  {
    assert OrStr(Some(s), "") == s || s == "";
  }

  /** Surrounding whitespace is stripped and blank pieces are dropped. */
  lemma ParseTagListExample()
    ensures ParseTagList(Some(" a, ,b ")) == ["a", "b"]
  {
    SplitExample();
    PickTagExample();
    ParseTagListUnfold(" a, ,b ");
  }

  lemma SplitExample()
    ensures Split(" a, ,b ") == [" a", " ", "b "]
  {
    SplitNoComma("b ");
    SplitAfterComma(" ", "b ");
    assert " " + "," + "b " == " ,b ";
    SplitAfterComma(" a", " ,b ");
    assert " a" + "," + " ,b " == " a, ,b ";
  }

  lemma PickTagExample()
    ensures FilterMap([" a", " ", "b "], PickTag) == ["a", "b"]
  {
    PickLeadingSpace();
    PickBlank();
    PickTrailingSpace();
    FilterMapThree(" a", " ", "b ", PickTag);
  }

  lemma PickLeadingSpace()
    ensures PickTag(" a") == Some("a")
  {
    TrimOneLeadingSpace();
    assert !IsSpace("a"[0]);
    assert TrimEnd("a") == "a";
  }

  lemma TrimOneLeadingSpace()
    ensures TrimStart(" a") == "a"
  {
    var s := " a";
    assert |s| > 0 && IsSpace(s[0]) && s[1..] == "a";
    assert !IsSpace("a"[0]);
  }

  lemma PickBlank()
    ensures PickTag(" ") == None
  {
    assert TrimStart(" ") == TrimStart("") == "";
  }

  lemma PickTrailingSpace()
    ensures PickTag("b ") == Some("b")
  {
    assert TrimStart("b ") == "b ";
    assert TrimEnd("b ") == TrimEnd("b") == "b";
  }

  /** An unset or empty setting parses to no entries. */
  lemma ParseTagListUnset()
    ensures ParseTagList(None) == []
    ensures ParseTagList(Some("")) == []
  {
    assert Split("") == [""];
    assert PickTag("").None?;
  }
}
