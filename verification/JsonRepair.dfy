/** The tolerant JSON scanner and repairer
    (environments/vmvm_tb_v2/vmvm_tb_v2/parsers.py:8, 13-80). */
module JsonRepair {
  import opened Wrappers

  // ---- Repairing ----

  /** The characters that may follow a backslash (RFC 8259, section 7). */
  predicate ValidEscape(c: char) { c in "\"\\/bfnrtu" }

  predicate IsRaw(c: char) { c == '\n' || c == '\r' || c == '\t' }

  /** The escape for a raw control character. */
  function EscapeOf(c: char): string
    requires IsRaw(c)
  {
    if c == '\n' then "\\n" else if c == '\r' then "\\r" else "\\t"
  }

  /** The first pass: `\X` becomes `\\X` unless X may be escaped; a lone backslash at the end stays. */
  function FixEscapes(s: string): string {
    if s == "" then ""
    else if s[0] == '\\' && |s| >= 2 then
      (if ValidEscape(s[1]) then [s[0], s[1]] else ['\\', '\\', s[1]]) + FixEscapes(s[2..])
    else [s[0]] + FixEscapes(s[1..])
  }

  /** The second pass from a given scanner state. */
  function EscapeRaw(s: string, inString: bool, escaped: bool): string {
    if s == "" then ""
    else if escaped then [s[0]] + EscapeRaw(s[1..], inString, false)
    else if s[0] == '\\' then [s[0]] + EscapeRaw(s[1..], inString, true)
    else if s[0] == '"' then [s[0]] + EscapeRaw(s[1..], !inString, false)
    else if inString && IsRaw(s[0]) then EscapeOf(s[0]) + EscapeRaw(s[1..], inString, false)
    else [s[0]] + EscapeRaw(s[1..], inString, false)
  }

  function Repaired(s: string): string { EscapeRaw(FixEscapes(s), false, false) }

  /** `_t2_repair`. */
  method Repair(js: string) returns (out: string)
    ensures out == Repaired(js)
  {
    var fixed := FixEscapes(js);
    out := "";
    var inString, escaped := false, false;
    var i := 0;
    while i < |fixed|
      invariant 0 <= i <= |fixed|
      invariant out + EscapeRaw(fixed[i..], inString, escaped) == Repaired(js)
    {
      var c := fixed[i];
      ghost var rest, before, state, pending := fixed[i..], out, inString, escaped;
      assert rest[0] == c && rest[1..] == fixed[i + 1..];
      var piece := [c];
      if escaped {
        escaped := false;
      } else if c == '\\' {
        escaped := true;
      } else if c == '"' {
        inString := !inString;
      } else if inString && IsRaw(c) {
        piece := EscapeOf(c);
      }
      assert EscapeRaw(rest, state, pending) == piece + EscapeRaw(rest[1..], inString, escaped);
      Associate(before, piece, EscapeRaw(rest[1..], inString, escaped));
      out, i := out + piece, i + 1;
    }
    assert fixed[i..] == "" && out + "" == out;
  }

  lemma Associate(a: string, b: string, c: string)
    ensures a + (b + c) == (a + b) + c
  {
  }

  /** Every escape is a valid one and no string holds a raw newline, carriage return or tab. */
  predicate Clean(s: string, inString: bool)
    decreases |s|
  {
    if s == "" then true
    else if s[0] == '\\' then |s| >= 2 ==> ValidEscape(s[1]) && Clean(s[2..], inString)
    else if s[0] == '"' then Clean(s[1..], !inString)
    else !(inString && IsRaw(s[0])) && Clean(s[1..], inString)
  }

  predicate EscapesValid(s: string) {
    if s == "" then true
    else if s[0] == '\\' && |s| >= 2 then ValidEscape(s[1]) && EscapesValid(s[2..])
    else EscapesValid(s[1..])
  }

  lemma {:induction false} FixedIsValid(s: string)
    ensures EscapesValid(FixEscapes(s))
    decreases |s|
  {
    if s == "" {
    } else if s[0] == '\\' && |s| >= 2 {
      FixedIsValid(s[2..]);
      var t := FixEscapes(s[2..]);
      if ValidEscape(s[1]) {
        PairThen('\\', s[1], t);
      } else {
        PairThen('\\', '\\', [s[1]] + t);
        CharThen(s[1], t);
        assert ['\\', '\\', s[1]] + t == ['\\', '\\'] + ([s[1]] + t);
      }
    } else if s[0] == '\\' {
      assert FixEscapes(s) == s;
    } else {
      FixedIsValid(s[1..]);
      CharThen(s[0], FixEscapes(s[1..]));
    }
  }

  lemma PairThen(a: char, b: char, t: string)
    requires a == '\\' && ValidEscape(b) && EscapesValid(t)
    ensures EscapesValid([a, b] + t)
  {
    assert ([a, b] + t)[2..] == t;
  }

  lemma CharThen(a: char, t: string)
    requires a != '\\' && EscapesValid(t)
    ensures EscapesValid([a] + t)
  {
    assert ([a] + t)[1..] == t;
  }

  lemma CleanPair(b: char, t: string, inString: bool)
    requires ValidEscape(b) && Clean(t, inString)
    ensures Clean(['\\', b] + t, inString)
  {
    assert (['\\', b] + t)[2..] == t;
  }

  lemma CleanQuote(t: string, inString: bool)
    requires Clean(t, !inString)
    ensures Clean(['"'] + t, inString)
  {
    Rest('"', t);
  }

  lemma CleanChar(c: char, t: string, inString: bool)
    requires c != '\\' && c != '"' && !(inString && IsRaw(c)) && Clean(t, inString)
    ensures Clean([c] + t, inString)
  {
    Rest(c, t);
  }

  lemma EscapeRawPair(s: string, inString: bool)
    requires |s| >= 2 && s[0] == '\\'
    ensures EscapeRaw(s, inString, false) == ['\\', s[1]] + EscapeRaw(s[2..], inString, false)
  {
    assert s[1..][0] == s[1] && s[1..][1..] == s[2..];
  }

  lemma {:induction false} EscapedIsClean(s: string, inString: bool)
    requires EscapesValid(s)
    ensures Clean(EscapeRaw(s, inString, false), inString)
    decreases |s|
  {
    if s == "" {
    } else if s[0] == '\\' && |s| >= 2 {
      EscapedIsClean(s[2..], inString);
      EscapeRawPair(s, inString);
      CleanPair(s[1], EscapeRaw(s[2..], inString, false), inString);
    } else if s[0] == '\\' {
      assert s[1..] == "";
    } else if s[0] == '"' {
      EscapedIsClean(s[1..], !inString);
      CleanQuote(EscapeRaw(s[1..], !inString, false), inString);
    } else {
      EscapedIsClean(s[1..], inString);
      var t := EscapeRaw(s[1..], inString, false);
      if inString && IsRaw(s[0]) {
        var e := EscapeOf(s[0]);
        assert e == ['\\', e[1]];
        CleanPair(e[1], t, inString);
      } else {
        CleanChar(s[0], t, inString);
      }
    }
  }

  lemma Rest(c: char, t: string)
    ensures ([c] + t)[1..] == t && ([c] + t)[0] == c
  {
  }

  lemma {:induction false} CleanIsFixed(s: string, inString: bool)
    requires Clean(s, inString)
    ensures FixEscapes(s) == s && EscapeRaw(s, inString, false) == s
    decreases |s|
  {
    if s == "" {
    } else if s[0] == '\\' && |s| >= 2 {
      CleanIsFixed(s[2..], inString);
      assert s == [s[0], s[1]] + s[2..];
      assert s[1..][0] == s[1] && s[1..][1..] == s[2..];
      assert EscapeRaw(s, inString, false) == [s[0]] + ([s[1]] + s[2..]);
    } else if s[0] == '\\' {
      assert s == [s[0]] && s[1..] == "";
    } else {
      CleanIsFixed(s[1..], if s[0] == '"' then !inString else inString);
      assert s == [s[0]] + s[1..];
    }
  }

  /** Repairing always gives clean text, leaves text alone if and only if it is clean already, and so
      repairing twice is repairing once. */
  lemma RepairIsIdempotent(s: string)
    ensures Clean(Repaired(s), false)
    ensures Repaired(s) == s <==> Clean(s, false)
    ensures Repaired(Repaired(s)) == Repaired(s)
  {
    FixedIsValid(s);
    EscapedIsClean(FixEscapes(s), false);
    CleanIsFixed(Repaired(s), false);
    if Clean(s, false) {
      CleanIsFixed(s, false);
    }
  }

  // ---- What a repaired text means ----

  /** What a JSON reader takes from a text: characters, string delimiters, the start of a unicode escape, and a backslash
      that ends the text. */
  datatype Symbol = Chr(c: char) | Delimiter | Unicode | Dangling

  /** The character a valid escape stands for (RFC 8259, section 7). */
  function Decoded(c: char): Symbol {
    match c
    case 'n' => Chr('\n')
    case 'r' => Chr('\r')
    case 't' => Chr('\t')
    case 'b' => Chr('\U{8}')
    case 'f' => Chr('\U{c}')
    case 'u' => Unicode
    case _ => Chr(c)
  }

  /** What a strict reader takes from clean text. */
  function Strict(s: string): seq<Symbol>
    decreases |s|
  {
    if s == "" then []
    else if s[0] == '\\' && |s| >= 2 then [Decoded(s[1])] + Strict(s[2..])
    else if s[0] == '\\' then [Dangling]
    else if s[0] == '"' then [Delimiter] + Strict(s[1..])
    else [Chr(s[0])] + Strict(s[1..])
  }

  /** What the writer of any text means: a backslash that starts no valid escape is itself, and so is a raw newline,
      carriage return or tab. */
  function Lenient(s: string): seq<Symbol>
    decreases |s|
  {
    if s == "" then []
    else if s[0] == '\\' && |s| >= 2 then
      (if s[1] in "\"\\/bfnrtu" then [Decoded(s[1])] else [Chr('\\'), Chr(s[1])]) + Lenient(s[2..])
    else if s[0] == '\\' then [Dangling]
    else if s[0] == '"' then [Delimiter] + Lenient(s[1..])
    else [Chr(s[0])] + Lenient(s[1..])
  }

  lemma StrictChar(c: char, t: string)
    requires c != '\\' && c != '"'
    ensures Strict([c] + t) == [Chr(c)] + Strict(t)
  {
    Rest(c, t);
  }

  lemma StrictPair(c: char, t: string)
    ensures Strict(['\\', c] + t) == [Decoded(c)] + Strict(t)
  {
    assert (['\\', c] + t)[2..] == t;
  }

  /** One character that is neither a backslash nor a quote, escaped if it has to be. */
  lemma OrdinaryChar(c: char, t: string, inString: bool)
    requires c != '\\' && c != '"'
    ensures Strict(EscapeRaw([c] + t, inString, false)) == [Chr(c)] + Strict(EscapeRaw(t, inString, false))
  {
    Rest(c, t);
    var rest := EscapeRaw(t, inString, false);
    if inString && IsRaw(c) {
      assert EscapeOf(c) == ['\\', EscapeOf(c)[1]];
      StrictPair(EscapeOf(c)[1], rest);
    } else {
      StrictChar(c, rest);
    }
  }

  lemma EscapedPair(c: char, t: string, inString: bool)
    ensures Strict(EscapeRaw(['\\', c] + t, inString, false)) == [Decoded(c)] + Strict(EscapeRaw(t, inString, false))
  {
    var s := ['\\', c] + t;
    EscapeRawPair(s, inString);
    assert s[2..] == t && s[1] == c;
    StrictPair(c, EscapeRaw(t, inString, false));
  }

  /** Text `s` means the same once repaired. */
  predicate MeansTheSame(s: string, inString: bool) { Strict(EscapeRaw(FixEscapes(s), inString, false)) == Lenient(s) }

  lemma ValidPairMeaning(s: string, inString: bool)
    requires |s| >= 2 && s[0] == '\\' && ValidEscape(s[1]) && MeansTheSame(s[2..], inString)
    ensures MeansTheSame(s, inString)
  {
    var t := FixEscapes(s[2..]);
    assert FixEscapes(s) == ['\\', s[1]] + t;
    EscapedPair(s[1], t, inString);
  }

  lemma OtherPairMeaning(s: string, inString: bool)
    requires |s| >= 2 && s[0] == '\\' && !ValidEscape(s[1]) && MeansTheSame(s[2..], inString)
    ensures MeansTheSame(s, inString)
  {
    var c, t := s[1], FixEscapes(s[2..]);
    assert FixEscapes(s) == ['\\', '\\'] + ([c] + t);
    EscapedPair('\\', [c] + t, inString);
    OrdinaryChar(c, t, inString);
    assert [Decoded('\\')] + ([Chr(c)] + Lenient(s[2..])) == [Chr('\\'), Chr(c)] + Lenient(s[2..]);
  }

  lemma LoneMeaning(inString: bool)
    ensures MeansTheSame("\\", inString)
  {
    assert "\\"[1..] == "" && FixEscapes("\\") == ['\\'] + "" == "\\";
    assert EscapeRaw("\\", inString, false) == ['\\'] + EscapeRaw("", inString, true) == "\\";
  }

  lemma QuoteMeaning(s: string, inString: bool)
    requires s != "" && s[0] == '"' && MeansTheSame(s[1..], !inString)
    ensures MeansTheSame(s, inString)
  {
    Rest('"', FixEscapes(s[1..]));
    Rest('"', EscapeRaw(FixEscapes(s[1..]), !inString, false));
  }

  lemma {:induction false} MeaningKept(s: string, inString: bool)
    ensures MeansTheSame(s, inString)
    decreases |s|
  {
    if s == "" {
    } else if s[0] == '\\' && |s| >= 2 {
      MeaningKept(s[2..], inString);
      if ValidEscape(s[1]) {
        ValidPairMeaning(s, inString);
      } else {
        OtherPairMeaning(s, inString);
      }
    } else if s[0] == '\\' {
      assert s == "\\";
      LoneMeaning(inString);
    } else if s[0] == '"' {
      MeaningKept(s[1..], !inString);
      QuoteMeaning(s, inString);
    } else {
      MeaningKept(s[1..], inString);
      OrdinaryChar(s[0], FixEscapes(s[1..]), inString);
    }
  }

  /** Repairing keeps the meaning: a strict reader takes from the repaired text exactly what the writer meant. */
  lemma RepairKeepsMeaning(s: string)
    ensures Strict(Repaired(s)) == Lenient(s)
  {
    MeaningKept(s, false);
  }

  // ---- The first object ----

  function Braces(n: nat): (r: string)
    ensures |r| == n
  {
    if n == 0 then "" else ['}'] + Braces(n - 1)
  }

  /** What closes a truncated object. */
  function Closing(depth: nat, inString: bool): string { (if inString then "\"" else "") + Braces(depth) }

  /** What the scanner returns from a given state on: everything up to the brace that closes the object,
      or everything, closed. */
  function Scan(s: string, depth: nat, inString: bool, escaped: bool): string {
    if s == "" then Closing(depth, inString)
    else if escaped then [s[0]] + Scan(s[1..], depth, inString, false)
    else if s[0] == '\\' then [s[0]] + Scan(s[1..], depth, inString, true)
    else if s[0] == '"' then [s[0]] + Scan(s[1..], depth, !inString, false)
    else if inString then [s[0]] + Scan(s[1..], depth, inString, false)
    else if s[0] == '{' then [s[0]] + Scan(s[1..], depth + 1, inString, false)
    else if s[0] == '}' && depth == 1 then [s[0]]
    else if s[0] == '}' && depth > 1 then [s[0]] + Scan(s[1..], depth - 1, inString, false)
    else [s[0]] + Scan(s[1..], depth, inString, false)
  }

  /** The input is cut off right after a backslash, before the object is closed. */
  predicate CutAtEscape(s: string, depth: nat, inString: bool, escaped: bool) {
    if s == "" then escaped
    else if escaped then CutAtEscape(s[1..], depth, inString, false)
    else if s[0] == '\\' then CutAtEscape(s[1..], depth, inString, true)
    else if s[0] == '"' then CutAtEscape(s[1..], depth, !inString, false)
    else if inString then CutAtEscape(s[1..], depth, inString, false)
    else if s[0] == '{' then CutAtEscape(s[1..], depth + 1, inString, false)
    else if s[0] == '}' && depth == 1 then false
    else if s[0] == '}' && depth > 1 then CutAtEscape(s[1..], depth - 1, inString, false)
    else CutAtEscape(s[1..], depth, inString, false)
  }

  function Find(s: string, i: nat): nat
    requires i <= |s|
    decreases |s| - i
  {
    if i == |s| || s[i] == '{' then i else Find(s, i + 1)
  }

  function FirstObject(region: string): Option<string> {
    var i := Find(region, 0);
    if i >= |region| then None else Some(Scan(region[i..], 0, false, false))
  }

  /** `_t2_first_json_object`. */
  method FirstJsonObject(region: string) returns (r: Option<string>)
    ensures r == FirstObject(region)
  {
    var start := 0;
    while start < |region| && region[start] != '{'
      invariant 0 <= start <= |region| && Find(region, 0) == Find(region, start)
    {
      start := start + 1;
    }
    if start == |region| {
      return None;
    }
    var s := region[start..];
    var depth: nat, inString, escaped, out := 0, false, false, "";
    var i := 0;
    while i < |s|
      invariant 0 <= i <= |s| && (i == 0 ==> depth == 0 && !escaped && !inString) && (i > 0 ==> depth > 0)
      invariant out + Scan(s[i..], depth, inString, escaped) == Scan(s, 0, false, false)
    {
      var c := s[i];
      ghost var rest := s[i..];
      assert rest[0] == c && rest[1..] == s[i + 1..];
      ghost var before, scanned := out, Scan(rest, depth, inString, escaped);
      out, i := out + [c], i + 1;
      if escaped {
        escaped := false;
      } else if c == '\\' {
        escaped := true;
      } else if c == '"' {
        inString := !inString;
      } else if inString {
      } else if c == '{' {
        depth := depth + 1;
      } else if c == '}' {
        depth := depth - 1;
        if depth == 0 {
          return Some(out);
        }
      }
      assert scanned == [c] + Scan(rest[1..], depth, inString, escaped);
      Associate(before, [c], Scan(rest[1..], depth, inString, escaped));
    }
    assert s[i..] == "";
    r := Some(out + Closing(depth, inString));
  }

  lemma {:induction false} FindStops(s: string, i: nat)
    requires i <= |s|
    ensures i <= Find(s, i) <= |s| && (Find(s, i) < |s| ==> s[Find(s, i)] == '{')
    decreases |s| - i
  {
    if i < |s| && s[i] != '{' {
      FindStops(s, i + 1);
    }
  }

  /** Scanning closing braces closes exactly as many levels. */
  lemma {:induction false} ScanBraces(n: nat, depth: nat)
    requires n <= depth && depth > 0
    ensures Scan(Braces(n), depth, false, false) == Braces(depth)
    decreases n
  {
    if n == 0 {
      assert "" + Braces(depth) == Braces(depth);
    } else {
      Rest('}', Braces(n - 1));
      if depth > 1 {
        ScanBraces(n - 1, depth - 1);
      } else {
        assert Braces(1) == ['}'] + Braces(0) && ['}'] + "" == ['}'];
      }
    }
  }

  lemma ScanClosing(depth: nat, inString: bool)
    requires depth > 0
    ensures Scan(Closing(depth, inString), depth, inString, false) == Closing(depth, inString)
  {
    ScanBraces(depth, depth);
    if inString {
      Rest('"', Braces(depth));
      assert "\"" + Braces(depth) == ['"'] + Braces(depth);
    } else {
      assert "" + Braces(depth) == Braces(depth);
    }
  }

  lemma {:induction false} BracesInString(n: nat, depth: nat)
    requires depth > 0
    ensures Scan(Braces(n), depth, true, false) == Braces(n) + Closing(depth, true)
  {
    if n == 0 {
      assert "" + Closing(depth, true) == Closing(depth, true);
    } else {
      Rest('}', Braces(n - 1));
      BracesInString(n - 1, depth);
      assert ['}'] + (Braces(n - 1) + Closing(depth, true)) == Braces(n) + Closing(depth, true);
    }
  }

  /** After a pending backslash the closing characters no longer close. */
  lemma EscapedClosing(depth: nat, inString: bool)
    requires depth > 0
    ensures |Scan(Closing(depth, inString), depth, inString, true)| > |Closing(depth, inString)|
  {
    if inString {
      Rest('"', Braces(depth));
      assert "\"" + Braces(depth) == ['"'] + Braces(depth);
      BracesInString(depth, depth);
    } else {
      Rest('}', Braces(depth - 1));
      assert "" + Braces(depth) == ['}'] + Braces(depth - 1);
      ScanBraces(depth - 1, depth);
    }
  }

  /** Scanning the scanner's own output again changes nothing, unless the input was cut after a backslash;
      then it makes the output longer. */
  lemma {:induction false} Rescan(s: string, depth: nat, inString: bool, escaped: bool)
    requires depth > 0
    ensures !CutAtEscape(s, depth, inString, escaped) ==>
      Scan(Scan(s, depth, inString, escaped), depth, inString, escaped) == Scan(s, depth, inString, escaped)
    ensures CutAtEscape(s, depth, inString, escaped) ==>
      |Scan(Scan(s, depth, inString, escaped), depth, inString, escaped)| > |Scan(s, depth, inString, escaped)|
    decreases |s|
  {
    if s == "" {
      if escaped {
        EscapedClosing(depth, inString);
      } else {
        ScanClosing(depth, inString);
      }
    } else if s[0] == '}' && !escaped && !inString && depth == 1 {
      assert [s[0]][0] == '}';
    } else {
      var nextDepth, nextString, nextEscaped := Next(s[0], depth, inString, escaped);
      Rescan(s[1..], nextDepth, nextString, nextEscaped);
      Rest(s[0], Scan(s[1..], nextDepth, nextString, nextEscaped));
    }
  }

  /** The scanner's state after a character that does not close the object. */
  lemma Next(c: char, depth: nat, inString: bool, escaped: bool) returns (d: nat, str: bool, esc: bool)
    requires depth > 0 && !(c == '}' && !escaped && !inString && depth == 1)
    ensures d > 0
    ensures esc == (!escaped && c == '\\') && str == (if !escaped && c == '"' then !inString else inString)
    ensures d == if !escaped && !inString && c == '{' then depth + 1 else if !escaped && !inString && c == '}' then depth - 1 else depth
  {
    esc := !escaped && c == '\\';
    str := if !escaped && c == '"' then !inString else inString;
    d := if !escaped && !inString && c == '{' then depth + 1 else if !escaped && !inString && c == '}' then depth - 1 else depth;
  }

  /** Extracting the first object from an extracted object gives it back if and only if the input was not
      cut off right after a backslash inside the object. */
  lemma FirstObjectFixpoint(region: string)
    requires FirstObject(region).Some?
    ensures var i, y := Find(region, 0), FirstObject(region).value;
      i < |region| && (FirstObject(y) == Some(y) <==> !CutAtEscape(region[i..], 0, false, false))
  {
    FindStops(region, 0);
    var i := Find(region, 0);
    var s := region[i..];
    assert s[0] == '{';
    var rest := Scan(s[1..], 1, false, false);
    Rest('{', rest);
    var y := [s[0]] + rest;
    assert Scan(s, 0, false, false) == y;
    assert y[..] == y && y[0..] == y;
    assert Find(y, 0) == 0;
    Rescan(s[1..], 1, false, false);
    assert Scan(y, 0, false, false) == [s[0]] + Scan(rest, 1, false, false);
    if CutAtEscape(s[1..], 1, false, false) {
      assert |Scan(y, 0, false, false)| > |y|;
    }
  }

  /** A text cut off after a backslash inside a string: the closing quote is taken for an escaped one, so extracting
      the object again closes it a second time. */
  lemma CutStringGrows()
    ensures FirstObject("{\"\\") == Some("{\"\\\"}")
    ensures FirstObject("{\"\\\"}") == Some("{\"\\\"}\"}")
  {
    var region, once := "{\"\\", "{\"\\\"}";
    assert region[0..] == region && once[0..] == once && Find(region, 0) == 0 == Find(once, 0);
    assert Braces(1) == ['}'] + Braces(0);
    assert Closing(1, true) == "\"}";
    CutStringScan();
    CutStringRescan();
    assert region[1..] == "\"\\" && once[1..] == "\"\\\"}";
    assert Scan(region, 0, false, false) == ['{'] + Scan(region[1..], 1, false, false);
    assert Scan(once, 0, false, false) == ['{'] + Scan(once[1..], 1, false, false);
    assert ['{'] + "\"\\\"}" == once && ['{'] + "\"\\\"}\"}" == "{\"\\\"}\"}";
  }

  lemma CutStringScan()
    ensures Scan("\"\\", 1, false, false) == "\"\\\"}"
  {
    assert Closing(1, true) == "\"}" by {
      assert Braces(1) == ['}'] + Braces(0);
    }
    assert "\"\\"[1..] == "\\" && "\\"[1..] == "";
    assert Scan("", 1, true, true) == "\"}";
    assert Scan("\\", 1, true, false) == "\\\"}";
  }

  lemma CutStringRescan()
    ensures Scan("\"\\\"}", 1, false, false) == "\"\\\"}\"}"
  {
    assert Closing(1, true) == "\"}" by {
      assert Braces(1) == ['}'] + Braces(0);
    }
    assert "\"\\\"}"[1..] == "\\\"}" && "\\\"}"[1..] == "\"}" && "\"}"[1..] == "}" && "}"[1..] == "";
    assert Scan("", 1, true, false) == "\"}";
    assert Scan("}", 1, true, false) == "}\"}";
    assert Scan("\"}", 1, true, true) == "\"}\"}";
    assert Scan("\\\"}", 1, true, false) == "\\\"}\"}";
  }

  /** The output is a leading part of the input when the object closes, and otherwise the input followed
      by what closes it. */
  lemma {:induction false} ScanKeepsText(s: string, depth: nat, inString: bool, escaped: bool)
    ensures Scan(s, depth, inString, escaped) <= s || s <= Scan(s, depth, inString, escaped)
    decreases |s|
  {
    if s != "" && !(s[0] == '}' && !escaped && !inString && depth == 1) {
      var t := s[1..];
      assert s == [s[0]] + t;
      ScanKeepsText(t, if !escaped && !inString && s[0] == '{' then depth + 1
                       else if !escaped && !inString && s[0] == '}' && depth > 1 then depth - 1 else depth,
                    if !escaped && s[0] == '"' then !inString else inString, !escaped && s[0] == '\\');
    }
  }

  // ---- Which part of a text is its first object ----

  /** Where a reader is after a text: how deep in braces, inside a string or not, right after a backslash or not. */
  datatype Place = Place(depth: int, inString: bool, escaped: bool)

  function Past(p: Place, c: char): Place {
    if p.escaped then p.(escaped := false)
    else if c == '\\' then p.(escaped := true)
    else if c == '"' then p.(inString := !p.inString)
    else if c == '{' && !p.inString then p.(depth := p.depth + 1)
    else if c == '}' && !p.inString then p.(depth := p.depth - 1)
    else p
  }

  function PlaceAfter(s: string): Place {
    if s == "" then Place(0, false, false) else Past(PlaceAfter(s[..|s| - 1]), s[|s| - 1])
  }

  /** Everything the text opened is closed again. */
  predicate Balanced(s: string) { PlaceAfter(s).depth == 0 }

  /** Longer than `n`, `y` is the shortest beginning of `s` in which everything is closed again; or there is none, and
      `y` is all of `s` with its string and its braces closed. */
  ghost predicate ClosesAfter(s: string, n: nat, y: string) {
    || (exists k :: n < k <= |s| && y == s[..k] && Balanced(y) && forall j :: n < j < k ==> !Balanced(s[..j]))
    || (&& (forall j :: n < j <= |s| ==> !Balanced(s[..j])) && PlaceAfter(s).depth > 0
        && y == s + (if PlaceAfter(s).inString then "\"" else "") + Braces(PlaceAfter(s).depth))
  }

  lemma PlaceNext(s: string, n: nat)
    requires n < |s|
    ensures PlaceAfter(s[..n + 1]) == Past(PlaceAfter(s[..n]), s[n])
  {
    assert s[..n + 1][..n] == s[..n];
  }

  lemma ClosesLater(s: string, n: nat, y: string)
    requires n < |s| && !Balanced(s[..n + 1]) && ClosesAfter(s, n + 1, y)
    ensures ClosesAfter(s, n, y)
  {
    if k :| n + 1 < k <= |s| && y == s[..k] && Balanced(y) && forall j :: n + 1 < j < k ==> !Balanced(s[..j]) {
      assert forall j :: n < j < k ==> !Balanced(s[..j]);
    }
  }

  /** The scanner from a place in the text. */
  function ScanAt(s: string, p: Place): string
    requires p.depth >= 0
  {
    Scan(s, p.depth, p.inString, p.escaped)
  }

  lemma ScanNext(s: string, p: Place)
    requires s != "" && p.depth > 0
    ensures Past(p, s[0]).depth >= 0
    ensures ScanAt(s, p) == if Past(p, s[0]).depth == 0 then [s[0]] else [s[0]] + ScanAt(s[1..], Past(p, s[0]))
  {
  }

  /** The scanner goes on to the first closing, or closes what is open. */
  lemma {:induction false} ScanCloses(s: string, n: nat)
    requires n <= |s| && PlaceAfter(s[..n]).depth > 0
    ensures ClosesAfter(s, n, s[..n] + ScanAt(s[n..], PlaceAfter(s[..n])))
    decreases |s| - n
  {
    var at := PlaceAfter(s[..n]);
    if n == |s| {
      assert s[..n] == s && s[n..] == "";
    } else {
      var next := PlaceAfter(s[..n + 1]);
      PlaceNext(s, n);
      ScanNext(s[n..], at);
      assert s[n..][1..] == s[n + 1..] && s[..n + 1] == s[..n] + [s[n]];
      if next.depth == 0 {
        assert Balanced(s[..n + 1]);
      } else {
        ScanCloses(s, n + 1);
        Associate(s[..n], [s[n]], ScanAt(s[n + 1..], next));
        ClosesLater(s, n, s[..n + 1] + ScanAt(s[n + 1..], next));
      }
    }
  }

  lemma {:induction false} NoBraceBefore(s: string, i: nat)
    requires i <= |s|
    ensures i <= Find(s, i) <= |s| && forall k :: i <= k < Find(s, i) ==> s[k] != '{'
    decreases |s| - i
  {
    if i < |s| && s[i] != '{' {
      NoBraceBefore(s, i + 1);
    }
  }

  /** The first object of a text starts at its first brace and is the shortest text from there in which every brace
      outside strings is closed again; if there is none, the text is closed. Without a brace there is no object. */
  lemma FirstObjectIs(region: string)
    ensures FirstObject(region) == None <==> '{' !in region
    ensures FirstObject(region).Some? ==>
      exists i :: 0 <= i < |region| && region[i] == '{' && (forall k :: 0 <= k < i ==> region[k] != '{') &&
        ClosesAfter(region[i..], 1, FirstObject(region).value)
  {
    NoBraceBefore(region, 0);
    FindStops(region, 0);
    var i := Find(region, 0);
    if i < |region| {
      var s := region[i..];
      PlaceNext(s, 0);
      assert s[..1] == "" + ['{'] && s == s[..1] + s[1..];
      ScanCloses(s, 1);
      assert Scan(s, 0, false, false) == [s[0]] + Scan(s[1..], 1, false, false);
      assert s[..1] + Scan(s[1..], 1, false, false) == FirstObject(region).value;
    }
  }

  // ---- What clean means ----

  /** Character `i` of `s` is in order: raw newlines, carriage returns and tabs only outside strings, and after a backslash
      only what may follow one. */
  predicate InOrderAt(s: string, i: nat)
    requires i < |s|
  {
    var at := PlaceAfter(s[..i]);
    && (s[i] in "\n\r\t" ==> !at.inString)
    && (at.escaped ==> s[i] in "\"\\/bfnrtu")
  }

  lemma CleanNext(s: string, n: nat, inString: bool)
    requires n < |s| && Clean(s[n..], inString)
    ensures s[n] == '\\' && n + 1 < |s| ==> ValidEscape(s[n + 1]) && Clean(s[n + 2..], inString)
    ensures s[n] != '\\' ==>
      !(inString && IsRaw(s[n])) && Clean(s[n + 1..], if s[n] == '"' then !inString else inString)
  {
    assert s[n..][1..] == s[n + 1..];
    if n + 1 < |s| {
      assert s[n..][2..] == s[n + 2..];
    }
  }

  lemma {:induction false} CleanFrom(s: string, n: nat)
    requires n <= |s| && !PlaceAfter(s[..n]).escaped && Clean(s[n..], PlaceAfter(s[..n]).inString)
    ensures forall i :: n <= i < |s| ==> InOrderAt(s, i)
    decreases |s| - n
  {
    if n < |s| {
      CleanNext(s, n, PlaceAfter(s[..n]).inString);
      PlaceNext(s, n);
      if s[n] == '\\' {
        if n + 1 < |s| {
          PlaceNext(s, n + 1);
          CleanFrom(s, n + 2);
        }
      } else {
        CleanFrom(s, n + 1);
      }
    }
  }

  /** In a repaired text no string holds a raw newline, carriage return or tab, and every escape is a valid one. */
  lemma RepairedInOrder(s: string)
    ensures forall i :: 0 <= i < |Repaired(s)| ==> InOrderAt(Repaired(s), i)
  {
    RepairIsIdempotent(s);
    var y := Repaired(s);
    assert y[..0] == "" && y[0..] == y;
    CleanFrom(y, 0);
  }
}
