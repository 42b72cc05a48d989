/**
 * The username list of utils.get_usernames_from_csv: the CSV rows, after
 * fetching and parsing, are reduced to normalised first-column names, and
 * names already processed are filtered out.
 */
module UsernameList {
  import opened Seqs

  /** The characters Python's `str.strip()` removes (`str.isspace`). */
  const Whitespace: set<char> := {
    '\t', '\n', '\U{B}', '\U{C}', '\r', '\U{1C}', '\U{1D}', '\U{1E}', '\U{1F}', ' ',
    '\U{85}', '\U{A0}', '\U{1680}',
    '\U{2000}', '\U{2001}', '\U{2002}', '\U{2003}', '\U{2004}', '\U{2005}',
    '\U{2006}', '\U{2007}', '\U{2008}', '\U{2009}', '\U{200A}',
    '\U{2028}', '\U{2029}', '\U{202F}', '\U{205F}', '\U{3000}'
  }

  /** `s.lstrip(chars)` */
  function LStrip(s: string, chars: set<char>): string
  {
    if s != [] && s[0] in chars then LStrip(s[1..], chars) else s
  }

  /** `s.rstrip(chars)` */
  function RStrip(s: string, chars: set<char>): string
  {
    if s != [] && s[|s| - 1] in chars then RStrip(s[..|s| - 1], chars) else s
  }

  /** lstrip removes the longest prefix made of `chars`, and nothing else. */
  lemma {:induction false} LStripSpec(s: string, chars: set<char>)
    ensures var r := LStrip(s, chars);
      |r| <= |s| && r == s[|s| - |r|..] &&
      (forall i :: 0 <= i < |s| - |r| ==> s[i] in chars) &&
      (r == [] || r[0] !in chars)
  {
    if s != [] && s[0] in chars {
      var t := s[1..];
      LStripSpec(t, chars);
      var r := LStrip(t, chars);
      assert LStrip(s, chars) == r;
      assert t[|t| - |r|..] == s[|s| - |r|..];
      forall i | 0 < i < |s| - |r|
        ensures s[i] in chars
      {
        assert s[i] == t[i - 1];
      }
    }
  }

  /** rstrip removes the longest suffix made of `chars`, and nothing else. */
  lemma {:induction false} RStripSpec(s: string, chars: set<char>)
    ensures var r := RStrip(s, chars);
      |r| <= |s| && r == s[..|r|] &&
      (forall i :: |r| <= i < |s| ==> s[i] in chars) &&
      (r == [] || r[|r| - 1] !in chars)
  {
    if s != [] && s[|s| - 1] in chars {
      var t := s[..|s| - 1];
      RStripSpec(t, chars);
      var r := RStrip(t, chars);
      assert RStrip(s, chars) == r;
      assert t[..|r|] == s[..|r|];
      forall i | |r| <= i < |s| - 1
        ensures s[i] in chars
      {
        assert s[i] == t[i];
      }
    }
  }

  /** `row[0].strip().lstrip('@')` */
  function Normalize(cell: string): (name: string)
    ensures name == [] || name[0] != '@'
  {
    var m := RStrip(LStrip(cell, Whitespace), Whitespace);
    LStripSpec(m, {'@'});
    LStrip(m, {'@'})
  }

  function AsciiLower(c: char): char
  {
    if 'A' <= c <= 'Z' then (c as int + 32) as char else c
  }

  /**
   * `name.lower() == "username"`. Only the ASCII capitals lower-case to the
   * ASCII letters of "username", so ASCII lower-casing decides it exactly.
   */
  predicate IsHeader(name: string)
  {
    |name| == 8 && forall i :: 0 <= i < 8 ==> AsciiLower(name[i]) == "username"[i]
  }

  /** A CSV row contributes its normalised first cell when that is neither empty nor the header. */
  predicate Kept(name: string)
  {
    name != [] && !IsHeader(name)
  }

  /** The names the row loop collects, in row order, duplicates included. */
  function KeptNames(rows: seq<seq<string>>): (names: seq<string>)
    ensures forall x :: x in names ==> Kept(x) && x[0] != '@'
    ensures |names| <= |rows|
  {
    if rows == [] then []
    else
      var last := rows[|rows| - 1];
      var front := KeptNames(rows[..|rows| - 1]);
      if last != [] && Kept(Normalize(last[0])) then front + [Normalize(last[0])] else front
  }

  /** The row loop of get_usernames_from_csv (`all_usernames`). */
  method CollectUsernames(rows: seq<seq<string>>) returns (all: seq<string>)
    ensures all == KeptNames(rows)
  {
    all := [];
    for i := 0 to |rows|
      invariant all == KeptNames(rows[..i])
    {
      assert rows[..i + 1][..i] == rows[..i];
      var row := rows[i];
      if row != [] {
        var username := Normalize(row[0]);
        if username != [] && !IsHeader(username) {
          all := all + [username];
        }
      }
    }
    assert rows[..|rows|] == rows;
  }

  /** `[u for u in all_usernames if u not in processed]` */
  function FilterUnprocessed(names: seq<string>, processed: set<string>): (r: seq<string>)
    ensures forall x :: x in r ==> x !in processed
    ensures forall x :: x !in processed ==> multiset(r)[x] == multiset(names)[x]
  {
    if names == [] then []
    else
      var last := names[|names| - 1];
      var front := FilterUnprocessed(names[..|names| - 1], processed);
      assert names == names[..|names| - 1] + [last];
      if last in processed then front else front + [last]
  }

  /** The guard at the head of get_usernames_from_csv. */
  predicate IsHttpUrl(url: string)
  {
    url != [] && |url| >= 4 && url[..4] == "http"
  }

  /** What `requests.get` and `csv.reader` deliver, as seen by the function. */
  datatype Fetch = RequestFailed | ParseFailed | Rows(rows: seq<seq<string>>)

  /**
   * get_usernames_from_csv: any failure (bad URL, request error, parse error)
   * yields the empty list; otherwise the kept names not yet processed.
   */
  method GetUsernamesFromCsv(url: string, fetch: Fetch, processed: set<string>) returns (names: seq<string>)
    ensures !IsHttpUrl(url) || !fetch.Rows? ==> names == []
    ensures IsHttpUrl(url) && fetch.Rows? ==> names == FilterUnprocessed(KeptNames(fetch.rows), processed)
    ensures forall x :: x in names ==> x !in processed && Kept(x) && x[0] != '@'
  {
    if !IsHttpUrl(url) {
      return [];
    }
    match fetch
    case RequestFailed =>
      names := [];
    case ParseFailed =>
      names := [];
    case Rows(rows) =>
      var all := CollectUsernames(rows);
      names := FilterUnprocessed(all, processed);
  }

  /** Row `row` of the CSV contributes the name x. */
  predicate RowYields(row: seq<string>, x: string)
  {
    row != [] && Normalize(row[0]) == x && Kept(x)
  }

  /** Every name the loop keeps comes from one row, and every such row is kept. */
  lemma {:induction false} KeptNamesMembership(rows: seq<seq<string>>, x: string)
    ensures x in KeptNames(rows) <==> exists i :: 0 <= i < |rows| && RowYields(rows[i], x)
  {
    if rows != [] {
      var n := |rows| - 1;
      var front := rows[..n];
      KeptNamesMembership(front, x);
      KeptNamesLast(rows, x);
      RowsYieldLast(rows, front, x);
    }
  }

  /** A row of `rows` yields x exactly when one of `front`, the rows before the last, does or the last one does. */
  lemma RowsYieldLast(rows: seq<seq<string>>, front: seq<seq<string>>, x: string)
    requires rows != [] && front == rows[..|rows| - 1]
    ensures (exists i :: 0 <= i < |rows| && RowYields(rows[i], x)) <==>
      (exists i :: 0 <= i < |front| && RowYields(front[i], x)) || RowYields(rows[|rows| - 1], x)
  {
    assert forall i :: 0 <= i < |front| ==> front[i] == rows[i];
  }

  /** The last row adds its name, if any, to the names of the rows before it. */
  lemma KeptNamesLast(rows: seq<seq<string>>, x: string)
    requires rows != []
    ensures x in KeptNames(rows) <==> x in KeptNames(rows[..|rows| - 1]) || RowYields(rows[|rows| - 1], x)
  {
  }

  /** Row order is kept: the names of a concatenation are the concatenated names. */
  lemma {:induction false} KeptNamesAppend(a: seq<seq<string>>, b: seq<seq<string>>)
    ensures KeptNames(a + b) == KeptNames(a) + KeptNames(b)
  {
    if b != [] {
      var n := |b| - 1;
      assert (a + b)[..|a + b| - 1] == a + b[..n];
      KeptNamesAppend(a, b[..n]);
    } else {
      assert a + b == a;
    }
  }

  /** The filter keeps the list's order: it distributes over concatenation. */
  lemma {:induction false} FilterUnprocessedAppend(a: seq<string>, b: seq<string>, processed: set<string>)
    ensures FilterUnprocessed(a + b, processed) == FilterUnprocessed(a, processed) + FilterUnprocessed(b, processed)
  {
    if b != [] {
      var n := |b| - 1;
      assert (a + b)[..|a + b| - 1] == a + b[..n];
      FilterUnprocessedAppend(a, b[..n], processed);
    } else {
      assert a + b == a;
    }
  }

  /** Stripping `ws` from both ends and then `front` from the start cuts out one contiguous piece. */
  lemma StripCuts(cell: string, ws: set<char>, front: set<char>) returns (lo: nat, hi: nat)
    ensures lo <= hi <= |cell|
    ensures LStrip(RStrip(LStrip(cell, ws), ws), front) == cell[lo..hi]
    ensures forall i :: 0 <= i < lo ==> cell[i] in ws + front
    ensures forall i :: hi <= i < |cell| ==> cell[i] in ws
  {
    var l := LStrip(cell, ws);
    LStripSpec(cell, ws);
    var m := RStrip(l, ws);
    RStripSpec(l, ws);
    var name := LStrip(m, front);
    LStripSpec(m, front);
    var a := |cell| - |l|;
    lo := a + (|m| - |name|);
    hi := lo + |name|;
    assert m == cell[a..a + |m|];
    forall i | a <= i < lo ensures cell[i] in front {
      assert cell[i] == m[i - a];
    }
    forall i | a + |m| <= i < |cell| ensures cell[i] in ws {
      assert cell[i] == l[i - a];
    }
  }

  /**
   * A normalised name is one contiguous piece of the cell: what is cut from
   * the front is whitespace or `@`, what is cut from the back is whitespace.
   */
  lemma NormalizeCuts(cell: string) returns (lo: nat, hi: nat)
    ensures lo <= hi <= |cell| && Normalize(cell) == cell[lo..hi]
    ensures forall i :: 0 <= i < lo ==> cell[i] in Whitespace || cell[i] == '@'
    ensures forall i :: hi <= i < |cell| ==> cell[i] in Whitespace
  {
    lo, hi := StripCuts(cell, Whitespace, {'@'});
  }

  /** Duplicates survive: the same handle on two rows is kept twice. */
  lemma DuplicatesKept()
    ensures KeptNames([["@bob"], ["bob "]]) == ["bob", "bob"]
  {
    assert LStrip("@bob", Whitespace) == "@bob";
    assert RStrip("@bob", Whitespace) == "@bob";
    assert LStrip("@bob", {'@'}) == "bob";
    assert LStrip("bob ", Whitespace) == "bob ";
    assert RStrip("bob ", Whitespace) == "bob";
    assert LStrip("bob", {'@'}) == "bob";
    assert !IsHeader("bob");
    assert [["@bob"], ["bob "]][..1] == [["@bob"]];
    assert [["@bob"]][..0] == [];
  }

  /** A space after the `@`s survives normalisation: "@ bob" is kept as " bob". */
  lemma SpaceAfterAtKept()
    ensures Normalize("@ bob") == " bob"
  {
    assert LStrip("@ bob", Whitespace) == "@ bob";
    assert RStrip("@ bob", Whitespace) == "@ bob";
    assert LStrip(" bob", {'@'}) == " bob";
  }
}
