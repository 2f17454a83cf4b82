/**
 * The client's header text: one `Key: Value` per line, reduced into a
 * JavaScript object. The object is modelled as the list of its (key, value)
 * pairs in property order, because that order is what `JSON.stringify`
 * later writes into the generated script.
 */
module Headers {
  import opened Text

  /** A JavaScript object whose properties are header names with string values, in property order. */
  type HeaderList = seq<(string, string)>

  predicate DistinctKeys(h: HeaderList)
  {
    forall i, j :: 0 <= i < j < |h| ==> h[i].0 != h[j].0
  }

  /** `h[k]`, or `None` where JavaScript would give `undefined`. */
  function Lookup(h: HeaderList, k: string): (r: Option<string>)
    ensures r.Some? ==> (k, r.value) in h
    ensures r.None? ==> forall p :: p in h ==> p.0 != k
  {
    if h == [] then None
    else if h[0].0 == k then Some(h[0].1)
    else Lookup(h[1..], k)
  }

  /**
   * `h[k] = v` on a JavaScript object: a key already present keeps its place
   * and takes the new value, a new key is added last.
   */
  function Assign(h: HeaderList, k: string, v: string): (r: HeaderList)
    ensures Lookup(r, k) == Some(v)
    ensures Lookup(h, k).Some? ==> |r| == |h| && forall i :: 0 <= i < |h| ==> r[i].0 == h[i].0
    ensures Lookup(h, k).None? ==> r == h + [(k, v)]
    ensures forall p :: p in r ==> p == (k, v) || p in h
  {
    if h == [] then [(k, v)]
    else if h[0].0 == k then [(k, v)] + h[1..]
    else [h[0]] + Assign(h[1..], k, v)
  }

  /** Assigning one key leaves every other key's value as it was. */
  lemma {:induction false} AssignKeepsOthers(h: HeaderList, k: string, v: string, other: string)
    requires other != k
    ensures Lookup(Assign(h, k, v), other) == Lookup(h, other)
  {
    if h != [] && h[0].0 != k && h[0].0 != other {
      AssignKeepsOthers(h[1..], k, v, other);
    }
  }

  /** Assigning keeps the keys of an object distinct. */
  lemma AssignDistinct(h: HeaderList, k: string, v: string)
    requires DistinctKeys(h)
    ensures DistinctKeys(Assign(h, k, v))
  {
    var r := Assign(h, k, v);
    if Lookup(h, k).Some? {
      forall i, j | 0 <= i < j < |r| ensures r[i].0 != r[j].0 {
        assert r[i].0 == h[i].0 && r[j].0 == h[j].0;
      }
    } else {
      forall i, j | 0 <= i < j < |r| ensures r[i].0 != r[j].0 {
        if j == |h| {
          assert r[i] == h[i] && h[i] in h;
        } else {
          assert r[i] == h[i] && r[j] == h[j];
        }
      }
    }
  }

  /** A parsed line that sets key `k`. */
  predicate Defines(p: Option<(string, string)>, k: string)
  {
    p.Some? && p.value.0 == k
  }

  /**
   * `lines.reduce((acc, line) => { ... acc[key] = value ... }, {})`: each line
   * that parses to a (key, value) pair is assigned into the object, in order.
   */
  function Fold(lines: seq<string>, parse: string -> Option<(string, string)>): (r: HeaderList)
    ensures |r| <= |lines|
  {
    if lines == [] then []
    else Apply(Fold(lines[..|lines| - 1], parse), parse(lines[|lines| - 1]))
  }

  /** The body of the reducer: assign the parsed pair, or keep the object as it is. */
  function Apply(acc: HeaderList, p: Option<(string, string)>): (r: HeaderList)
    ensures p.Some? ==> Lookup(r, p.value.0) == Some(p.value.1) && |r| <= |acc| + 1
    ensures p.None? ==> r == acc
  {
    match p
    case Some((k, v)) => Assign(acc, k, v)
    case None => acc
  }

  /** A line that does not set `k` leaves the value of `k` alone. */
  lemma ApplyKeepsOthers(acc: HeaderList, p: Option<(string, string)>, k: string)
    requires !Defines(p, k)
    ensures Lookup(Apply(acc, p), k) == Lookup(acc, k)
  {
    if p.Some? {
      AssignKeepsOthers(acc, p.value.0, p.value.1, k);
    }
  }

  /** The object never holds a key twice. */
  lemma {:induction false} FoldDistinct(lines: seq<string>, parse: string -> Option<(string, string)>)
    ensures DistinctKeys(Fold(lines, parse))
  {
    if lines != [] {
      FoldDistinct(lines[..|lines| - 1], parse);
      var p := parse(lines[|lines| - 1]);
      if p.Some? {
        AssignDistinct(Fold(lines[..|lines| - 1], parse), p.value.0, p.value.1);
      }
    }
  }

  /** The last line that sets a key decides its value: later lines overwrite earlier ones. */
  lemma {:induction false} FoldFindsLast(lines: seq<string>, parse: string -> Option<(string, string)>, k: string, i: nat)
    requires i < |lines| && Defines(parse(lines[i]), k)
    requires forall j :: i < j < |lines| ==> !Defines(parse(lines[j]), k)
    ensures Lookup(Fold(lines, parse), k) == Some(parse(lines[i]).value.1)
  {
    var n := |lines|;
    if i < n - 1 {
      var prefix := lines[..n - 1];
      assert prefix[i] == lines[i];
      forall j | i < j < |prefix| ensures !Defines(parse(prefix[j]), k) {
        assert prefix[j] == lines[j];
      }
      FoldFindsLast(prefix, parse, k, i);
      ApplyKeepsOthers(Fold(prefix, parse), parse(lines[n - 1]), k);
    }
  }

  /** A key no line sets is absent from the object. */
  lemma {:induction false} FoldUndefined(lines: seq<string>, parse: string -> Option<(string, string)>, k: string)
    requires forall j :: 0 <= j < |lines| ==> !Defines(parse(lines[j]), k)
    ensures Lookup(Fold(lines, parse), k) == None
  {
    if lines != [] {
      var prefix := lines[..|lines| - 1];
      forall j | 0 <= j < |prefix| ensures !Defines(parse(prefix[j]), k) {
        assert prefix[j] == lines[j];
      }
      FoldUndefined(prefix, parse, k);
      ApplyKeepsOthers(Fold(prefix, parse), parse(lines[|lines| - 1]), k);
    }
  }

  /** Every pair in the object is one that some line parsed to. */
  lemma {:induction false} FoldEntriesFromLines(lines: seq<string>, parse: string -> Option<(string, string)>)
    ensures forall p :: p in Fold(lines, parse) ==> exists j :: 0 <= j < |lines| && parse(lines[j]) == Some(p)
  {
    if lines != [] {
      var n := |lines|;
      var prefix := lines[..n - 1];
      var acc := Fold(prefix, parse);
      FoldEntriesFromLines(prefix, parse);
      forall p | p in acc ensures exists j :: 0 <= j < n && parse(lines[j]) == Some(p) {
        var j :| 0 <= j < |prefix| && parse(prefix[j]) == Some(p);
        assert prefix[j] == lines[j];
      }
      assert Fold(lines, parse) == Apply(acc, parse(lines[n - 1]));
    }
  }

  /**
   * One line as the client parses it: `line.split(":").map(trim)`, of which
   * only the first two pieces are used, as key and value. A line is kept
   * when both are non-empty (`undefined`, for a line without a colon, counts
   * as empty).
   */
  function ParseLineAsWritten(line: string): (r: Option<(string, string)>)
    ensures r.Some? ==> r.value.0 != "" && r.value.1 != ""
    ensures r.Some? ==> ':' !in r.value.0 && ':' !in r.value.1
  {
    var parts := Split(line, ':');
    var key := Trim(parts[0]);
    var value := if |parts| > 1 then Trim(parts[1]) else "";
    if key != "" && value != "" then Some((key, value)) else None
  }

  /**
   * One line with the value taken as everything after the first colon, so
   * that a value may itself contain colons.
   */
  function ParseLine(line: string): (r: Option<(string, string)>)
    ensures r.Some? ==> r.value.0 != "" && r.value.1 != ""
    ensures r.Some? ==> ':' !in r.value.0
  {
    var parts := Split(line, ':');
    var key := Trim(parts[0]);
    var value := if |parts| > 1 then Trim(Join(parts[1..], ':')) else "";
    if key != "" && value != "" then Some((key, value)) else None
  }

  /** A line without a colon sets no header. */
  lemma NoColonNoHeader(line: string)
    requires ':' !in line
    ensures ParseLineAsWritten(line) == None && ParseLine(line) == None
  {
    SplitWithoutSeparator(line, ':');
  }

  /** `key: value` where the value has no colon: both readings agree on the trimmed key and value. */
  lemma ParseLineAsWrittenOf(key: string, value: string)
    requires ':' !in key && ':' !in value
    ensures ParseLineAsWritten(key + ":" + value) ==
      if Trim(key) != "" && Trim(value) != "" then Some((Trim(key), Trim(value))) else None
  {
    SplitAfterPiece(key, value, ':');
    SplitWithoutSeparator(value, ':');
  }

  /** `key: value` where the value may contain colons: the value is everything after the first colon, trimmed. */
  lemma ParseLineOf(key: string, value: string)
    requires ':' !in key
    ensures ParseLine(key + ":" + value) ==
      if Trim(key) != "" && Trim(value) != "" then Some((Trim(key), Trim(value))) else None
  {
    SplitAfterPiece(key, value, ':');
    var parts := Split(key + ":" + value, ':');
    assert parts[1..] == Split(value, ':');
    JoinSplit(value, ':');
  }

  /** The header object the client sends, as written: `headers.split("\n").reduce(...)`. */
  function ParseHeadersAsWritten(text: string): (r: HeaderList)
    ensures DistinctKeys(r)
    ensures forall p :: p in r ==> p.0 != "" && p.1 != "" && ':' !in p.0 && ':' !in p.1
    ensures |r| <= |Split(text, '\n')|
  {
    FoldDistinct(Split(text, '\n'), ParseLineAsWritten);
    FoldEntriesFromLines(Split(text, '\n'), ParseLineAsWritten);
    Fold(Split(text, '\n'), ParseLineAsWritten)
  }

  /** The header object with values read up to the end of their line. */
  function ParseHeaders(text: string): HeaderList
  {
    Fold(Split(text, '\n'), ParseLine)
  }

  /** Every header the client sends has a non-empty name and value. */
  lemma HeadersNonEmpty(text: string)
    ensures forall p :: p in ParseHeaders(text) ==> p.0 != "" && p.1 != ""
    ensures forall p :: p in ParseHeadersAsWritten(text) ==> p.0 != "" && p.1 != ""
  {
    FoldEntriesFromLines(Split(text, '\n'), ParseLine);
    FoldEntriesFromLines(Split(text, '\n'), ParseLineAsWritten);
  }

  /**
   * The reduce loop that builds the header object, assigning into the
   * accumulator line by line, each line read as the client reads it.
   */
  method BuildHeaders(text: string) returns (acc: HeaderList)
    ensures acc == ParseHeadersAsWritten(text)
  {
    var lines := Split(text, '\n');
    acc := [];
    var i := 0;
    while i < |lines|
      invariant 0 <= i <= |lines|
      invariant acc == Fold(lines[..i], ParseLineAsWritten)
    {
      assert lines[..i + 1][..i] == lines[..i];
      match ParseLineAsWritten(lines[i]) {
        case Some((k, v)) => acc := Assign(acc, k, v);
        case None =>
      }
      i := i + 1;
    }
    assert lines[..i] == lines;
  }

  /** A text holding a colon is not blank, so it does not trim to "". */
  lemma ColonNotBlank(head: string, tail: string)
    ensures Trim(head + ":" + tail) != ""
  {
    assert (head + ":" + tail)[|head|] == ':';
  }

  /**
   * A value that itself holds a colon: the client as written keeps only the
   * part before that colon, while reading up to the end of the line keeps it
   * whole.
   */
  lemma ValueCutAtSecondColon(key: string, head: string, tail: string)
    requires ':' !in key && ':' !in head
    ensures ParseLineAsWritten(key + ":" + head + ":" + tail) ==
      if Trim(key) != "" && Trim(head) != "" then Some((Trim(key), Trim(head))) else None
    ensures ParseLine(key + ":" + head + ":" + tail) ==
      if Trim(key) != "" then Some((Trim(key), Trim(head + ":" + tail))) else None
  {
    CutAtSecondColon(key, head, tail);
    KeptWhole(key, head, tail);
  }

  /** The corrected half of `ValueCutAtSecondColon`. */
  lemma KeptWhole(key: string, head: string, tail: string)
    requires ':' !in key
    ensures ParseLine(key + ":" + head + ":" + tail) ==
      if Trim(key) != "" then Some((Trim(key), Trim(head + ":" + tail))) else None
  {
    assert key + ":" + head + ":" + tail == key + ":" + (head + ":" + tail);
    ParseLineOf(key, head + ":" + tail);
    ColonNotBlank(head, tail);
  }

  /** The as-written half of `ValueCutAtSecondColon`. */
  lemma CutAtSecondColon(key: string, head: string, tail: string)
    requires ':' !in key && ':' !in head
    ensures ParseLineAsWritten(key + ":" + head + ":" + tail) ==
      if Trim(key) != "" && Trim(head) != "" then Some((Trim(key), Trim(head))) else None
  {
    assert key + ":" + head + ":" + tail == key + ":" + (head + ":" + tail);
    SplitAfterPiece(key, head + ":" + tail, ':');
    SplitAfterPiece(head, tail, ':');
  }

  /** A name or word with no colon and no white space at either end. */
  predicate Token(s: string)
  {
    s != [] && !IsSpace(s[0]) && !IsSpace(s[|s| - 1]) && ':' !in s
  }

  /**
   * In the page's own `Key: Value` form, a value whose first word is followed
   * by a colon is cut at that colon as written.
   */
  lemma SpacedValueCut(key: string, word: string, rest: string)
    requires Token(key) && Token(word)
    ensures ParseLineAsWritten(key + ": " + word + ":" + rest) == Some((key, word))
  {
    assert key + ": " + word + ":" + rest == key + ":" + (" " + word) + ":" + rest;
    TrimOfTrimmed(key);
    TrimAfterSpace(word);
    CutAtSecondColon(key, " " + word, rest);
  }

  /**
   * A header line whose value is a URL, such as `Referer: http://example.com`,
   * is sent as `Referer: http`.
   */
  lemma HeaderValueTruncated(rest: string)
    ensures ParseLineAsWritten("Referer: http:" + rest) == Some(("Referer", "http"))
  {
    assert "Referer"[0] == 'R' && "Referer"[6] == 'r';
    assert "http"[0] == 'h' && "http"[3] == 'p';
    assert "Referer: http:" == "Referer" + ": " + "http" + ":";
    SpacedValueCut("Referer", "http", rest);
  }
}
