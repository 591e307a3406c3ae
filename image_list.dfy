/** The additional-images field of the new-product form: the text box shows
    the URL list joined with ", ", and typing into it parses the text back
    by splitting on commas, trimming each piece and dropping empty ones. */
module ImageList {
  import opened Text

  /** The characters JavaScript's `trim` removes: white space and line
      terminators. */
  predicate IsSpace(c: char) {
    var n := c as int;
    n == 0x09 || n == 0x0A || n == 0x0B || n == 0x0C || n == 0x0D || n == 0x20 ||
    n == 0xA0 || n == 0x1680 || (0x2000 <= n <= 0x200A) || n == 0x2028 || n == 0x2029 ||
    n == 0x202F || n == 0x205F || n == 0x3000 || n == 0xFEFF
  }

  /** Neither end of `s` is white space. */
  predicate Trimmed(s: string) {
    s == [] || (!IsSpace(s[0]) && !IsSpace(s[|s| - 1]))
  }

  predicate CommaFree(s: string) {
    forall k :: 0 <= k < |s| ==> s[k] != ','
  }

  predicate AllSpace(s: string) {
    forall k :: 0 <= k < |s| ==> IsSpace(s[k])
  }

  /** `s.split(",")`: the pieces between commas, empty ones included; there
      is always at least one piece. */
  function Split(s: string): (r: seq<string>)
    ensures |r| >= 1
    ensures forall k :: 0 <= k < |r| ==> CommaFree(r[k])
  {
    if s == [] then [""]
    else if s[0] == ',' then [""] + Split(s[1..])
    else
      var rest := Split(s[1..]);
      [[s[0]] + rest[0]] + rest[1..]
  }

  /** The first position at or after `i` that is not white space. */
  function SkipSpaces(s: string, i: nat): (j: nat)
    requires i <= |s|
    ensures i <= j <= |s|
    ensures forall k :: i <= k < j ==> IsSpace(s[k])
    ensures j < |s| ==> !IsSpace(s[j])
    decreases |s| - i
  {
    if i < |s| && IsSpace(s[i]) then SkipSpaces(s, i + 1) else i
  }

  /** The end of `s[lo..j]` once white space is dropped from its back. */
  function BackSpaces(s: string, lo: nat, j: nat): (e: nat)
    requires lo <= j <= |s|
    ensures lo <= e <= j
    ensures forall k :: e <= k < j ==> IsSpace(s[k])
    ensures e > lo ==> !IsSpace(s[e - 1])
  {
    if j > lo && IsSpace(s[j - 1]) then BackSpaces(s, lo, j - 1) else j
  }

  /** `url.trim()`: white space dropped from the front, then from the back.
      What remains is a trimmed run of `s`, and every character dropped was
      white space. */
  function Trim(s: string): (r: string)
    ensures Trimmed(r)
    ensures OccursAt(s, r, SkipSpaces(s, 0))
    ensures forall k :: 0 <= k < SkipSpaces(s, 0) ==> IsSpace(s[k])
    ensures forall k :: SkipSpaces(s, 0) + |r| <= k < |s| ==> IsSpace(s[k])
  {
    var i := SkipSpaces(s, 0);
    var e := BackSpaces(s, i, |s|);
    s[i..e]
  }

  /** What one piece contributes: its trimmed text, unless that is empty. */
  function Kept(piece: string): seq<string> {
    var t := Trim(piece);
    if t == "" then [] else [t]
  }

  /** `.map(url => url.trim()).filter(url => url.length > 0)`. */
  function Clean(pieces: seq<string>): seq<string> {
    if pieces == [] then [] else Kept(pieces[0]) + Clean(pieces[1..])
  }

  /** The `onChange` parser: every entry it yields is non-empty, has no
      white space at either end and contains no comma. */
  function Parse(s: string): (r: seq<string>)
    ensures WellFormed(r)
  {
    CleanWellFormed(Split(s));
    Clean(Split(s))
  }

  /** `urls.join(sep)`: empty for no entries, else it starts with the first. */
  function Join(urls: seq<string>, sep: string): (r: string)
    ensures urls == [] ==> r == ""
    ensures urls != [] ==> StartsWith(r, urls[0])
  {
    if urls == [] then ""
    else if |urls| == 1 then urls[0]
    else urls[0] + sep + Join(urls[1..], sep)
  }

  /** The field's displayed text: empty exactly for an empty list of
      well-formed entries, and it starts with the first entry. */
  function Display(urls: seq<string>): (r: string)
    ensures WellFormed(urls) ==> (r == "" <==> urls == [])
    ensures urls != [] ==> StartsWith(r, urls[0])
  {
    Join(urls, ", ")
  }

  predicate WellFormed(urls: seq<string>) {
    forall k :: 0 <= k < |urls| ==> urls[k] != "" && Trimmed(urls[k]) && CommaFree(urls[k])
  }

  // ---- Properties of the parser ----

  lemma TrimCommaFree(piece: string)
    requires CommaFree(piece)
    ensures CommaFree(Trim(piece))
  {
    var t := Trim(piece);
    var i := SkipSpaces(piece, 0);
    assert OccursAt(piece, t, i);
    forall k | 0 <= k < |t|
      ensures t[k] != ','
    {
      assert t[k] == piece[i..i + |t|][k];
    }
  }

  lemma SingleWellFormed(u: string)
    requires u != "" && Trimmed(u) && CommaFree(u)
    ensures WellFormed([u])
  {
  }

  /** Trimming a comma-free piece leaves a well-formed entry or nothing. */
  lemma KeptWellFormed(piece: string)
    requires CommaFree(piece)
    ensures WellFormed(Kept(piece))
  {
    var t := Trim(piece);
    if t != "" {
      assert CommaFree(t) by {
        TrimCommaFree(piece);
      }
      assert Kept(piece) == [t];
      SingleWellFormed(t);
    } else {
      assert Kept(piece) == [];
    }
  }

  lemma WellFormedConcat(a: seq<string>, b: seq<string>)
    requires WellFormed(a) && WellFormed(b)
    ensures WellFormed(a + b)
  {
    forall k | 0 <= k < |a + b|
      ensures (a + b)[k] != "" && Trimmed((a + b)[k]) && CommaFree((a + b)[k])
    {
      if k < |a| {
        assert (a + b)[k] == a[k];
      } else {
        assert (a + b)[k] == b[k - |a|];
      }
    }
  }

  lemma {:induction false} CleanWellFormed(pieces: seq<string>)
    requires forall k :: 0 <= k < |pieces| ==> CommaFree(pieces[k])
    ensures WellFormed(Clean(pieces))
  {
    if pieces != [] {
      CleanWellFormed(pieces[1..]);
      KeptWellFormed(pieces[0]);
      WellFormedConcat(Kept(pieces[0]), Clean(pieces[1..]));
    }
  }


  lemma {:induction false} CleanConcat(a: seq<string>, b: seq<string>)
    ensures Clean(a + b) == Clean(a) + Clean(b)
  {
    if a == [] {
      assert a + b == b;
    } else {
      assert (a + b)[0] == a[0];
      assert (a + b)[1..] == a[1..] + b;
      CleanConcat(a[1..], b);
      calc {
        Clean(a + b);
        Kept(a[0]) + Clean(a[1..] + b);
        Kept(a[0]) + (Clean(a[1..]) + Clean(b));
        (Kept(a[0]) + Clean(a[1..])) + Clean(b);
      }
    }
  }

  /** Splitting at a comma: the pieces of each side, side by side. */
  lemma {:induction false} SplitAppend(a: string, b: string)
    ensures Split(a + "," + b) == Split(a) + Split(b)
  {
    if a == [] {
      assert a + "," + b == [','] + b;
      assert ([','] + b)[1..] == b;
    } else {
      assert (a + "," + b)[0] == a[0];
      assert (a + "," + b)[1..] == a[1..] + "," + b;
      SplitAppend(a[1..], b);
    }
  }

  /** The parser keeps the order of the pieces: the entries before a comma
      come first, then the entries after it. */
  lemma ParseAppend(a: string, b: string)
    ensures Parse(a + "," + b) == Parse(a) + Parse(b)
  {
    SplitAppend(a, b);
    CleanConcat(Split(a), Split(b));
  }

  lemma {:induction false} SplitCommaFree(s: string)
    requires CommaFree(s)
    ensures Split(s) == [s]
  {
    if s != [] {
      SplitCommaFree(s[1..]);
      assert [s[0]] + s[1..] == s;
    }
  }

  lemma TrimAllSpace(s: string)
    requires AllSpace(s)
    ensures Trim(s) == ""
  {
  }

  /** White space in front of a trimmed, non-empty text is all that trimming
      removes. */
  lemma TrimSpacePrefix(p: string, u: string)
    requires AllSpace(p) && u != [] && Trimmed(u)
    ensures Trim(p + u) == u
  {
    var s := p + u;
    var i := SkipSpaces(s, 0);
    assert s[|p|] == u[0];
    assert i == |p|;
    assert s[|s| - 1] == u[|u| - 1];
    assert s[i..] == u;
  }

  lemma {:induction false} SplitPiecesAllSpace(s: string)
    requires forall k :: 0 <= k < |s| ==> s[k] == ',' || IsSpace(s[k])
    ensures forall k :: 0 <= k < |Split(s)| ==> AllSpace(Split(s)[k])
  {
    if s != [] {
      SplitPiecesAllSpace(s[1..]);
    }
  }

  lemma {:induction false} CleanAllSpace(pieces: seq<string>)
    requires forall k :: 0 <= k < |pieces| ==> AllSpace(pieces[k])
    ensures Clean(pieces) == []
  {
    if pieces != [] {
      TrimAllSpace(pieces[0]);
      CleanAllSpace(pieces[1..]);
    }
  }

  /** Text made only of commas and white space parses to no URLs at all. */
  lemma ParseBlank(s: string)
    requires forall k :: 0 <= k < |s| ==> s[k] == ',' || IsSpace(s[k])
    ensures Parse(s) == []
  {
    SplitPiecesAllSpace(s);
    CleanAllSpace(Split(s));
  }

  lemma ParseAllSpace(p: string)
    requires AllSpace(p)
    ensures Parse(p) == []
  {
    ParseBlank(p);
  }

  lemma ParseOne(p: string, u: string)
    requires AllSpace(p) && u != "" && Trimmed(u) && CommaFree(u)
    ensures Parse(p + u) == [u]
  {
    assert CommaFree(p + u) by {
      forall k | 0 <= k < |p + u|
        ensures (p + u)[k] != ','
      {
        if k < |p| {
          assert IsSpace(p[k]);
        } else {
          assert (p + u)[k] == u[k - |p|];
        }
      }
    }
    SplitCommaFree(p + u);
    TrimSpacePrefix(p, u);
    assert Clean([p + u]) == Kept(p + u) + Clean([]);
  }

  lemma WellFormedSplit(urls: seq<string>)
    requires WellFormed(urls) && |urls| >= 1
    ensures urls[0] != "" && Trimmed(urls[0]) && CommaFree(urls[0])
    ensures WellFormed(urls[1..])
  {
    forall k | 0 <= k < |urls| - 1
      ensures urls[1..][k] != "" && Trimmed(urls[1..][k]) && CommaFree(urls[1..][k])
    {
      assert urls[1..][k] == urls[k + 1];
    }
  }

  lemma SeparatorSplit(p: string, u: string, rest: string)
    ensures p + (u + ", " + rest) == (p + u) + "," + (" " + rest)
  {
    assert ", " == [','] + [' '];
  }

  /** The round trip with a run of white space in front, which is what the
      space after each separator becomes once the text is split. */
  lemma {:induction false} ParseJoinAfterSpace(p: string, urls: seq<string>)
    requires AllSpace(p) && WellFormed(urls)
    ensures Parse(p + Join(urls, ", ")) == urls
    decreases |urls|
  {
    if urls == [] {
      assert p + Join(urls, ", ") == p;
      ParseAllSpace(p);
    } else if |urls| == 1 {
      WellFormedSplit(urls);
      ParseOne(p, urls[0]);
    } else {
      WellFormedSplit(urls);
      assert AllSpace(" ");
      ParseJoinAfterSpace(" ", urls[1..]);
      ParseJoinStep(p, urls);
    }
  }

  /** One separator of the joined text: the first URL, then the rest. */
  lemma ParseJoinStep(p: string, urls: seq<string>)
    requires AllSpace(p) && |urls| >= 2
    requires urls[0] != "" && Trimmed(urls[0]) && CommaFree(urls[0])
    requires Parse(" " + Join(urls[1..], ", ")) == urls[1..]
    ensures Parse(p + Join(urls, ", ")) == urls
  {
    var rest := Join(urls[1..], ", ");
    assert p + Join(urls, ", ") == (p + urls[0]) + "," + (" " + rest) by {
      assert Join(urls, ", ") == urls[0] + ", " + rest;
      SeparatorSplit(p, urls[0], rest);
    }
    ParseAppend(p + urls[0], " " + rest);
    ParseOne(p, urls[0]);
    HeadTail(urls);
  }

  lemma HeadTail(urls: seq<string>)
    requires |urls| >= 1
    ensures urls == [urls[0]] + urls[1..]
  {
  }

  /** Parsing the displayed text gives back the list, for any list of
      non-empty, trimmed, comma-free URLs. */
  lemma ParseDisplay(urls: seq<string>)
    requires WellFormed(urls)
    ensures Parse(Display(urls)) == urls
  {
    ParseJoinAfterSpace("", urls);
    assert "" + Join(urls, ", ") == Join(urls, ", ");
  }

  /** And the other way round: displaying the parsed list and parsing again
      changes nothing, so editing the text settles after one pass. */
  lemma ParseIdempotent(s: string)
    ensures Parse(Display(Parse(s))) == Parse(s)
  {
    ParseDisplay(Parse(s));
  }
}
