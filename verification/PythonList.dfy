/** The tokenizer for the inside of a printed Python list (internal/loaders/response_adapters.go). */
module PythonList {
  import opened EventTypes
  import opened Strings

  predicate IsQuote(c: char) {
    c == '\'' || c == '"'
  }

  /** The scanner from any of its states: `quote` is the quote it is inside of, `current` the value
      collected so far, `values` the finished ones. */
  function Scan(s: string, quote: Option<char>, current: string, values: seq<string>): seq<string>
    decreases |s|
  {
    if s == "" then values + [Trim(current)]
    else
      match quote
      case Some(q) =>
        if s[0] == '\\' && |s| > 1 && s[1] == q then Scan(s[2..], quote, current + [q], values)
        else if s[0] == q then Scan(s[1..], None, current, values)
        else Scan(s[1..], quote, current + [s[0]], values)
      case None =>
        if IsQuote(s[0]) then Scan(s[1..], Some(s[0]), current, values)
        else if s[0] == ',' then Scan(s[1..], None, "", values + [Trim(current)])
        else Scan(s[1..], None, current + [s[0]], values)
  }

  function Parse(inner: string): seq<string> {
    Scan(inner, None, "", [])
  }

  /** The index loop of the program. */
  method ParsePythonList(inner: string) returns (values: seq<string>)
    ensures values == Parse(inner)
  {
    values := [];
    var current := "";
    var inQuote: Option<char> := None;
    var i := 0;
    assert inner[0..] == inner;
    while i < |inner|
      invariant 0 <= i <= |inner|
      invariant Scan(inner[i..], inQuote, current, values) == Parse(inner)
      decreases |inner| - i
    {
      var ch := inner[i];
      ghost var rest := inner[i..];
      assert rest[1..] == inner[i + 1..];
      if inQuote.Some? {
        if ch == '\\' && i + 1 < |inner| && inner[i + 1] == inQuote.value {
          assert rest[2..] == inner[i + 2..];
          current := current + [inQuote.value];
          i := i + 1;
        } else if ch == inQuote.value {
          inQuote := None;
        } else {
          current := current + [ch];
        }
      } else if IsQuote(ch) {
        inQuote := Some(ch);
      } else if ch == ',' {
        values := values + [Trim(current)];
        current := "";
      } else {
        current := current + [ch];
      }
      i := i + 1;
    }
    values := values + [Trim(current)];
  }

  // --- Printing ---

  function Escape(x: string, q: char): string {
    if x == "" then "" else (if x[0] == q then ['\\', q] else [x[0]]) + Escape(x[1..], q)
  }

  function Quoted(x: string, q: char): string {
    [q] + Escape(x, q) + [q]
  }

  /** The inside of the list: each value in its own quotes, joined by ", ". */
  function Print(xs: seq<string>, qs: seq<char>): string
    requires |qs| == |xs|
  {
    if xs == [] then ""
    else Quoted(xs[0], qs[0]) + if |xs| == 1 then "" else ", " + Print(xs[1..], qs[1..])
  }

  predicate EndsInBackslash(x: string) {
    x != "" && x[|x| - 1] == '\\'
  }

  /** The values that survive printing and parsing. */
  predicate Good(x: string) {
    Trim(x) == x && !EndsInBackslash(x)
  }

  // --- Trimming ---

  lemma TrimSpaceBefore(p: string, s: string)
    requires p == "" || p == " "
    ensures Trim(p + s) == Trim(s)
  {
    if p == "" {
      assert p + s == s;
    } else {
      assert (p + s)[1..] == s;
    }
  }

  lemma {:induction false} TrimLeftThrough(y: string, q: char, t: string)
    requires !IsSpace(q)
    ensures TrimLeft(y + [q] + t) == TrimLeft(y) + [q] + t
  {
    if y == "" {
      assert y + [q] + t == [q] + t;
    } else {
      assert (y + [q] + t)[1..] == y[1..] + [q] + t;
      TrimLeftThrough(y[1..], q, t);
    }
  }

  lemma {:induction false} TrimRightStops(a: string, q: char, t: string)
    requires !IsSpace(q)
    ensures TrimRight(a + [q] + t) == a + [q] + TrimRight(t)
    decreases |t|
  {
    if t == "" {
      assert a + [q] + t == a + [q];
    } else {
      assert (a + [q] + t)[..|a + [q] + t| - 1] == a + [q] + t[..|t| - 1];
      TrimRightStops(a, q, t[..|t| - 1]);
    }
  }

  lemma {:induction false} TrimLeftStart(y: string)
    ensures |TrimLeft(y)| <= |y|
    ensures TrimLeft(y) == y || (y != "" && IsSpace(y[0]) && |TrimLeft(y)| < |y|)
    ensures TrimLeft(y) != "" ==> !IsSpace(TrimLeft(y)[0])
  {
    if y != "" && IsSpace(y[0]) {
      TrimLeftStart(y[1..]);
    }
  }

  // --- One value ---

  /** A value that does not end in a backslash is read back up to its closing quote. */
  lemma {:induction false} ScanQuoted(x: string, q: char, rest: string, current: string, values: seq<string>)
    requires IsQuote(q) && !EndsInBackslash(x)
    ensures Scan(Escape(x, q) + [q] + rest, Some(q), current, values) == Scan(rest, None, current + x, values)
    decreases |x|
  {
    var s := Escape(x, q) + [q] + rest;
    if x == "" {
      assert s[1..] == rest && current + x == current;
    } else {
      var tail := Escape(x[1..], q) + [q] + rest;
      assert current + [x[0]] + x[1..] == current + x;
      ScanQuoted(x[1..], q, rest, current + [x[0]], values);
      if x[0] == q {
        assert s[2..] == tail;
      } else {
        assert s[1..] == tail;
        assert x[0] == '\\' ==> tail[0] != q;
      }
    }
  }

  /** A trailing backslash swallows the closing quote, which becomes part of the value. */
  lemma {:induction false} ScanSwallows(y: string, q: char, rest: string, current: string, values: seq<string>)
    requires IsQuote(q)
    ensures Scan(Escape(y + "\\", q) + [q] + rest, Some(q), current, values)
            == Scan(rest, Some(q), current + y + [q], values)
    decreases |y|
  {
    var x := y + "\\";
    var s := Escape(x, q) + [q] + rest;
    if y == "" {
      assert x[1..] == "" && Escape(x, q) == "\\";
      assert s[2..] == rest && current + y + [q] == current + [q];
    } else {
      var tail := Escape(x[1..], q) + [q] + rest;
      assert x[1..] == y[1..] + "\\";
      assert current + [y[0]] + y[1..] + [q] == current + y + [q];
      ScanSwallows(y[1..], q, rest, current + [y[0]], values);
      if y[0] == q {
        assert s[2..] == tail;
      } else {
        assert s[1..] == tail;
        assert y[0] == '\\' ==> tail[0] != q;
      }
    }
  }

  /** Finished values stay, and the next one starts with what is already collected. */
  lemma {:induction false} ScanExtends(s: string, quote: Option<char>, current: string, values: seq<string>)
    returns (t: string)
    ensures var r := Scan(s, quote, current, values);
            |r| > |values| && r[..|values|] == values && r[|values|] == Trim(current + t)
    decreases |s|
  {
    t := "";
    assert current + t == current;
    if s != "" {
      match quote
      case Some(q) =>
        if s[0] == '\\' && |s| > 1 && s[1] == q {
          var u := ScanExtends(s[2..], quote, current + [q], values);
          t := [q] + u;
          assert current + [q] + u == current + t;
        } else if s[0] == q {
          t := ScanExtends(s[1..], None, current, values);
        } else {
          var u := ScanExtends(s[1..], quote, current + [s[0]], values);
          t := [s[0]] + u;
          assert current + [s[0]] + u == current + t;
        }
      case None =>
        if IsQuote(s[0]) {
          t := ScanExtends(s[1..], Some(s[0]), current, values);
        } else if s[0] == ',' {
          var u := ScanExtends(s[1..], None, "", values + [Trim(current)]);
          var r := Scan(s, quote, current, values);
          assert r[..|values| + 1][..|values|] == r[..|values|];
          assert r[..|values| + 1][|values|] == r[|values|];
        } else {
          var u := ScanExtends(s[1..], None, current + [s[0]], values);
          t := [s[0]] + u;
          assert current + [s[0]] + u == current + t;
        }
    }
  }

  lemma SwallowedDiffers(p: string, y: string, q: char, t: string)
    requires (p == "" || p == " ") && IsQuote(q)
    ensures Trim(p + y + [q] + t) != y + "\\"
  {
    assert p + y + [q] + t == p + (y + [q] + t);
    TrimSpaceBefore(p, y + [q] + t);
    TrimLeftThrough(y, q, t);
    TrimRightStops(TrimLeft(y), q, t);
    TrimLeftStart(y);
    var v := TrimLeft(y) + [q] + TrimRight(t);
    assert v[|TrimLeft(y)|] == q;
    assert (y + "\\")[|y|] == '\\';
    if TrimLeft(y) != y {
      assert (y + "\\")[0] == y[0];
      assert TrimLeft(y) != "" ==> v[0] == TrimLeft(y)[0];
    }
  }

  // --- The whole list ---

  predicate AllGood(xs: seq<string>) {
    forall i :: 0 <= i < |xs| ==> Good(xs[i])
  }

  predicate AllQuotes(qs: seq<char>) {
    forall i :: 0 <= i < |qs| ==> IsQuote(qs[i])
  }

  lemma PrintHead(xs: seq<string>, qs: seq<char>)
    requires xs != [] && |qs| == |xs|
    ensures var rest := if |xs| == 1 then "" else ", " + Print(xs[1..], qs[1..]);
            && Print(xs, qs)[0] == qs[0]
            && Print(xs, qs)[1..] == Escape(xs[0], qs[0]) + [qs[0]] + rest
  {
  }

  /** A bad first value makes the result differ at its own position. */
  lemma BadHead(xs: seq<string>, qs: seq<char>, p: string, values: seq<string>)
    requires xs != [] && |qs| == |xs| && AllQuotes(qs) && (p == "" || p == " ") && EndsInBackslash(xs[0])
    ensures Scan(Print(xs, qs), None, p, values) != values + xs
  {
    PrintHead(xs, qs);
    var q, x := qs[0], xs[0];
    var y := x[..|x| - 1];
    assert x == y + [x[|x| - 1]];
    var rest := if |xs| == 1 then "" else ", " + Print(xs[1..], qs[1..]);
    ScanSwallows(y, q, rest, p, values);
    var t := ScanExtends(rest, Some(q), p + y + [q], values);
    SwallowedDiffers(p, y, q, t);
    assert (values + xs)[|values|] == x;
  }

  lemma AfterComma(xs: seq<string>, qs: seq<char>, current: string, values: seq<string>)
    requires |xs| > 1 && |qs| == |xs|
    ensures Scan(", " + Print(xs[1..], qs[1..]), None, current, values)
            == Scan(Print(xs[1..], qs[1..]), None, " ", values + [Trim(current)])
  {
    var s := ", " + Print(xs[1..], qs[1..]);
    assert s[1..] == " " + Print(xs[1..], qs[1..]);
    assert s[1..][1..] == Print(xs[1..], qs[1..]);
    assert "" + [' '] == " ";
  }

  lemma {:induction false} ScanPrint(xs: seq<string>, qs: seq<char>, p: string, values: seq<string>)
    requires xs != [] && |qs| == |xs| && AllQuotes(qs) && (p == "" || p == " ")
    ensures Scan(Print(xs, qs), None, p, values) == values + xs <==> AllGood(xs)
    decreases |xs|
  {
    var q, x := qs[0], xs[0];
    if EndsInBackslash(x) {
      BadHead(xs, qs, p, values);
    } else {
      PrintHead(xs, qs);
      var rest := if |xs| == 1 then "" else ", " + Print(xs[1..], qs[1..]);
      ScanQuoted(x, q, rest, p, values);
      TrimSpaceBefore(p, x);
      assert Scan(Print(xs, qs), None, p, values) == Scan(rest, None, p + x, values);
      if |xs| == 1 {
        assert xs == [x];
        assert (values + [Trim(x)])[|values|] == Trim(x) && (values + xs)[|values|] == x;
      } else {
        ScanPrintTail(xs, qs, p, values);
      }
    }
  }

  lemma {:induction false} ScanPrintTail(xs: seq<string>, qs: seq<char>, p: string, values: seq<string>)
    requires |xs| > 1 && |qs| == |xs| && AllQuotes(qs) && (p == "" || p == " ") && !EndsInBackslash(xs[0])
    ensures Scan(", " + Print(xs[1..], qs[1..]), None, p + xs[0], values) == values + xs <==> AllGood(xs)
    decreases |xs|, 0
  {
    var x := xs[0];
    TrimSpaceBefore(p, x);
    AfterComma(xs, qs, p + x, values);
    var values' := values + [Trim(x)];
    ScanPrint(xs[1..], qs[1..], " ", values');
    var t := ScanExtends(Print(xs[1..], qs[1..]), None, " ", values');
    var r := Scan(Print(xs[1..], qs[1..]), None, " ", values');
    assert r[|values|] == r[..|values'|][|values|] == Trim(x);
    assert (values + xs)[|values|] == x;
    if Trim(x) == x {
      assert values' + xs[1..] == values + xs;
      assert AllGood(xs) <==> AllGood(xs[1..]) by {
        assert xs == [x] + xs[1..];
      }
    }
  }

  /** Parsing undoes printing exactly when the list is not empty and every value is free of leading
      and trailing white space and does not end in a backslash; commas, quotes and inner backslashes
      are all fine, with any choice of quotes. */
  lemma {:induction false} RoundTrip(xs: seq<string>, qs: seq<char>)
    requires |qs| == |xs| && AllQuotes(qs)
    ensures Parse(Print(xs, qs)) == xs <==> xs != [] && AllGood(xs)
  {
    if xs != [] {
      ScanPrint(xs, qs, "", []);
      assert [] + xs == xs;
    }
  }

  // --- Values without quotes ---

  /** The pieces between the commas. */
  function Pieces(s: string): (ps: seq<string>)
    ensures |ps| > 0
  {
    if s == "" then [""]
    else
      var rest := Pieces(s[1..]);
      if s[0] == ',' then [""] + rest else [[s[0]] + rest[0]] + rest[1..]
  }

  function TrimAll(ps: seq<string>): (r: seq<string>)
    ensures |r| == |ps| && forall i :: 0 <= i < |ps| ==> r[i] == Trim(ps[i])
  {
    seq(|ps|, i requires 0 <= i < |ps| => Trim(ps[i]))
  }

  lemma TrimAllHead(values: seq<string>, p: string, ps: seq<string>)
    ensures values + [Trim(p)] + TrimAll(ps) == values + TrimAll([p] + ps)
  {
    assert TrimAll([p] + ps) == [Trim(p)] + TrimAll(ps);
  }

  lemma ScanStep(s: string, current: string, values: seq<string>)
    requires s != "" && s[0] != '\'' && s[0] != '"'
    ensures Scan(s, None, current, values) ==
            if s[0] == ',' then Scan(s[1..], None, "", values + [Trim(current)])
            else Scan(s[1..], None, current + [s[0]], values)
  {
  }

  /** What is scanned when `current` has been collected before the string. */
  function Collected(current: string, s: string): seq<string> {
    [current + Pieces(s)[0]] + Pieces(s)[1..]
  }

  lemma CollectedComma(current: string, s: string)
    requires s != "" && s[0] == ','
    ensures Collected(current, s) == [current] + Collected("", s[1..])
  {
    NothingCollected(s[1..]);
    var rest := Pieces(s[1..]);
    assert Pieces(s) == [""] + rest;
    assert Pieces(s)[1..] == rest && current + "" == current;
  }

  lemma CollectedOther(current: string, s: string)
    requires s != "" && s[0] != ','
    ensures Collected(current, s) == Collected(current + [s[0]], s[1..])
  {
    var rest := Pieces(s[1..]);
    var head := [s[0]] + rest[0];
    assert Pieces(s) == [head] + rest[1..];
    assert Pieces(s)[1..] == rest[1..] && current + head == current + [s[0]] + rest[0];
  }

  lemma {:induction false} ScanPlain(s: string, current: string, values: seq<string>)
    requires '\'' !in s && '"' !in s
    ensures Scan(s, None, current, values) == values + TrimAll(Collected(current, s))
    decreases |s|
  {
    if s == "" {
      assert current + "" == current && Collected(current, s) == [current];
    } else {
      assert s[0] in s && forall c :: c in s[1..] ==> c in s;
      ScanStep(s, current, values);
      if s[0] == ',' {
        CollectedComma(current, s);
        ScanPlain(s[1..], "", values + [Trim(current)]);
        TrimAllHead(values, current, Collected("", s[1..]));
      } else {
        CollectedOther(current, s);
        ScanPlain(s[1..], current + [s[0]], values);
      }
    }
  }

  /** Without quotes the parser splits at the commas and trims every piece. */
  lemma ParsePlain(s: string)
    requires '\'' !in s && '"' !in s
    ensures Parse(s) == TrimAll(Pieces(s))
  {
    ScanPlain(s, "", []);
    NothingCollected(s);
  }

  lemma NothingCollected(s: string)
    ensures Collected("", s) == Pieces(s)
  {
    var ps := Pieces(s);
    assert "" + ps[0] == ps[0] && ps == [ps[0]] + ps[1..];
  }

  function Joined(ps: seq<string>): string
    requires |ps| > 0
  {
    if |ps| == 1 then ps[0] else ps[0] + "," + Joined(ps[1..])
  }

  lemma HeadAssociates(c: char, x: string, rest: string)
    ensures [c] + x + "," + rest == [c] + (x + "," + rest)
  {
  }

  lemma JoinedHead(c: char, x: string, tail: seq<string>)
    ensures Joined([[c] + x] + tail) == [c] + Joined([x] + tail)
  {
    var ps, qs := [x] + tail, [[c] + x] + tail;
    if tail != [] {
      assert ps[1..] == tail && qs[1..] == tail;
      HeadAssociates(c, x, Joined(tail));
    }
  }

  /** The pieces are the string cut at its commas. */
  lemma {:induction false} PiecesJoin(s: string)
    ensures Joined(Pieces(s)) == s && forall i :: 0 <= i < |Pieces(s)| ==> ',' !in Pieces(s)[i]
  {
    if s != "" {
      var rest := Pieces(s[1..]);
      PiecesJoin(s[1..]);
      assert s == [s[0]] + s[1..];
      if s[0] == ',' {
        assert Pieces(s) == [""] + rest && ([""] + rest)[1..] == rest;
      } else {
        JoinedHead(s[0], rest[0], rest[1..]);
        assert [rest[0]] + rest[1..] == rest;
        assert forall i :: 1 <= i < |rest| ==> Pieces(s)[i] == rest[i];
      }
    }
  }

  /** A value that ends in a backslash comes back as another: the backslash escapes the closing quote. */
  lemma TrailingBackslashLost()
    ensures Parse(Print(["a\\"], ['\''])) == ["a'"]
  {
    var s := "'a\\'";
    assert Escape("a\\", '\'') == "a\\" by {
      assert "a\\"[1..] == "\\" && "\\"[1..] == "";
      assert Escape("\\", '\'') == "\\";
    }
    assert Print(["a\\"], ['\'']) == s;
    var q := Some('\'');
    assert "\\'"[2..] == "" && "a" + ['\''] == "a'" && "" + ['a'] == "a" && "a\\'"[1..] == "\\'" && s[1..] == "a\\'";
    assert Scan(s, None, "", []) == Scan("a\\'", q, "", []);
    assert Scan("a\\'", q, "", []) == Scan("\\'", q, "a", []);
    assert Scan("\\'", q, "a", []) == Scan("", q, "a'", []);
    assert Trim("a'") == "a'";
  }
}
