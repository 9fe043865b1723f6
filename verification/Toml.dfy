/** A line-oriented subset of TOML v1.0.0: tables, arrays of tables, and bare keys bound to basic
    strings, integers, booleans and one-line arrays of strings; its printer and its reader.

    A strict reader also refuses what the standard lets no document contain (control characters
    in a string) and what it lets a reader refuse (integers beyond 64 signed bits). */
module Toml {
  import opened Wrappers
  import opened Entities
  import opened Decimal
  import opened Lines

  datatype Value = Str(s: string) | Int(n: int) | Bool(b: bool) | Strs(ss: seq<string>)

  datatype Line =
    | Blank
    | Comment(text: string)
    | Header(name: string)
    | ArrayHeader(name: string)
    | Pair(key: string, value: Value)

  // ---- Printing ----

  function Quoted(s: string): string { "\"" + s + "\"" }

  function QuotedTail(ss: seq<string>): string {
    if ss == [] then "" else ", " + Quoted(ss[0]) + QuotedTail(ss[1..])
  }

  function ShowElements(ss: seq<string>): string {
    if ss == [] then "]" else Quoted(ss[0]) + (QuotedTail(ss[1..]) + "]")
  }

  function ShowValue(v: Value): string {
    match v
    case Str(s) => Quoted(s)
    case Int(n) => Itoa(n)
    case Bool(b) => if b then "true" else "false"
    case Strs(ss) => "[" + ShowElements(ss)
  }

  function ShowLine(l: Line): string {
    match l
    case Blank => ""
    case Comment(text) => "#" + text
    case Header(name) => "[" + name + "]"
    case ArrayHeader(name) => "[[" + name + "]]"
    case Pair(key, value) => key + " = " + ShowValue(value)
  }

  function Print(ls: seq<Line>): string {
    if ls == [] then "" else ShowLine(ls[0]) + "\n" + Print(ls[1..])
  }

  // ---- Reading ----

  predicate IsBare(c: char) { 'a' <= c <= 'z' || 'A' <= c <= 'Z' || IsDigit(c) || c == '_' || c == '-' }
  predicate IsBareKey(s: string) { s != "" && forall i :: 0 <= i < |s| ==> IsBare(s[i]) }
  predicate IsName(s: string) { s != "" && forall i :: 0 <= i < |s| ==> IsBare(s[i]) || s[i] == '.' }

  // Control characters other than tab.
  predicate IsControl(c: char) { (c < ' ' && c != '\t') || c == '\U{7F}' }

  // What may stand for itself in a basic string.
  predicate Plain(c: char, strict: bool) { c != '"' && c != '\\' && c != '\n' && (strict ==> !IsControl(c)) }
  predicate AllPlain(s: string, strict: bool) { forall i :: 0 <= i < |s| ==> Plain(s[i], strict) }

  function Escape(c: char): Option<char> {
    if c == '"' || c == '\\' then Some(c)
    else if c == 'n' then Some('\n')
    else if c == 't' then Some('\t')
    else if c == 'r' then Some('\r')
    else if c == 'b' then Some('\U{8}')
    else if c == 'f' then Some('\U{C}')
    else None
  }

  // The rest of a basic string, after its opening quote: its value, and what follows it.
  function ReadString(s: string, strict: bool): Option<(string, string)> {
    if s == "" then None
    else if s[0] == '"' then Some(("", s[1..]))
    else if s[0] == '\\' then
      if |s| < 2 || Escape(s[1]).None? then None
      else
        match ReadString(s[2..], strict)
        case None => None
        case Some((v, rest)) => Some(([Escape(s[1]).value] + v, rest))
    else if !Plain(s[0], strict) then None
    else
      match ReadString(s[1..], strict)
      case None => None
      case Some((v, rest)) => Some(([s[0]] + v, rest))
  }

  function SkipSpace(s: string): string { if s != "" && (s[0] == ' ' || s[0] == '\t') then SkipSpace(s[1..]) else s }

  // The rest of an array of strings, after an element.
  function ReadElements(s: string, strict: bool): Option<(seq<string>, string)>
    decreases |s|
  {
    if s == "" then None
    else if s[0] == ']' then Some(([], s[1..]))
    else if s[0] != ',' then None
    else
      var t := SkipSpace(s[1..]);
      SkipShorter(s[1..]);
      if t == "" || t[0] != '"' then None
      else
        match ReadString(t[1..], strict)
        case None => None
        case Some((v, rest)) =>
          StringShorter(t[1..], strict);
          match ReadElements(rest, strict)
          case None => None
          case Some((vs, rest')) => Some(([v] + vs, rest'))
  }

  function ReadArray(s: string, strict: bool): Option<(seq<string>, string)> {
    if s == "" then None
    else if s[0] == ']' then Some(([], s[1..]))
    else if s[0] != '"' then None
    else
      match ReadString(s[1..], strict)
      case None => None
      case Some((v, rest)) =>
        match ReadElements(rest, strict)
        case None => None
        case Some((vs, rest')) => Some(([v] + vs, rest'))
  }

  function DigitRun(s: string): (k: nat)
    ensures k <= |s| && Digits(s[..k]) && (k < |s| ==> !IsDigit(s[k]))
  {
    if s != "" && IsDigit(s[0]) then 1 + DigitRun(s[1..]) else 0
  }

  function ReadInteger(s: string, strict: bool): Option<(int, string)> {
    if s != "" && s[0] == '-' then ReadNumeral(s[1..], -1, strict) else ReadNumeral(s, 1, strict)
  }

  // No leading zeros.
  function ReadNumeral(s: string, sign: int, strict: bool): Option<(int, string)> {
    var k := DigitRun(s);
    if k == 0 || (s[0] == '0' && k > 1) then None
    else
      var n := sign * ValueOf(s[..k]);
      if strict && !(-TWO63 <= n < TWO63) then None else Some((n, s[k..]))
  }

  function ReadValue(s: string, strict: bool): Option<(Value, string)> {
    if s == "" then None
    else if s[0] == '"' then
      match ReadString(s[1..], strict) { case None => None case Some((v, rest)) => Some((Str(v), rest)) }
    else if s[0] == '[' then
      match ReadArray(s[1..], strict) { case None => None case Some((vs, rest)) => Some((Strs(vs), rest)) }
    else if "true" <= s then Some((Bool(true), s[4..]))
    else if "false" <= s then Some((Bool(false), s[5..]))
    else
      match ReadInteger(s, strict) { case None => None case Some((n, rest)) => Some((Int(n), rest)) }
  }

  function KeyRun(s: string): (k: nat)
    ensures k <= |s| && (forall i :: 0 <= i < k ==> IsBare(s[i])) && (k < |s| ==> !IsBare(s[k]))
  {
    if s != "" && IsBare(s[0]) then 1 + KeyRun(s[1..]) else 0
  }

  // A value, then nothing but a comment.
  function Bound(key: string, r: Option<(Value, string)>): Option<Line> {
    match r
    case None => None
    case Some((v, rest)) =>
      var tail := SkipSpace(rest);
      if tail == "" || tail[0] == '#' then Some(Pair(key, v)) else None
  }

  function ReadPair(s: string, strict: bool): Option<Line> {
    var k := KeyRun(s);
    var t := SkipSpace(s[k..]);
    if k == 0 || t == "" || t[0] != '=' then None
    else Bound(s[..k], ReadValue(SkipSpace(t[1..]), strict))
  }

  function ReadLine(s: string, strict: bool): Option<Line> {
    if s == "" then Some(Blank)
    else if s[0] == '#' then Some(Comment(s[1..]))
    else if "[[" <= s then
      if |s| > 4 && s[|s| - 2..] == "]]" && IsName(s[2..|s| - 2]) then Some(ArrayHeader(s[2..|s| - 2])) else None
    else if s[0] == '[' then
      if |s| > 2 && s[|s| - 1] == ']' && IsName(s[1..|s| - 1]) then Some(Header(s[1..|s| - 1])) else None
    else ReadPair(s, strict)
  }

  function ReadLines(ls: seq<string>, strict: bool): Option<seq<Line>> {
    if ls == [] then Some([])
    else
      match (ReadLine(ls[0], strict), ReadLines(ls[1..], strict))
      case (Some(l), Some(rest)) => Some([l] + rest)
      case _ => None
  }

  lemma SkipShorter(s: string)
    ensures |SkipSpace(s)| <= |s|
  {
  }

  /** A basic string's value is shorter than its text, by more than its quote if anything in it
      was escaped. */
  lemma {:induction false} StringShorter(s: string, strict: bool)
    ensures var r := ReadString(s, strict); r.Some? ==> |r.value.0| + 1 + |r.value.1| <= |s|
  {
    if s != "" {
      StringShorter(s[1..], strict);
      if |s| >= 2 { StringShorter(s[2..], strict); }
    }
  }

  // ---- What is printed is read back ----

  predicate FitsValue(v: Value, strict: bool) {
    match v
    case Str(s) => AllPlain(s, strict)
    case Int(n) => strict ==> -TWO63 <= n < TWO63
    case Bool(_) => true
    case Strs(ss) => forall i :: 0 <= i < |ss| ==> AllPlain(ss[i], strict)
  }

  predicate Fits(l: Line, strict: bool) {
    match l
    case Blank => true
    case Comment(text) => '\n' !in text
    case Header(name) => IsName(name)
    case ArrayHeader(name) => IsName(name)
    case Pair(key, value) => IsBareKey(key) && FitsValue(value, strict)
  }

  lemma {:induction false} PlainReadsBack(v: string, rest: string, strict: bool)
    requires AllPlain(v, strict)
    ensures ReadString(v + "\"" + rest, strict) == Some((v, rest))
  {
    var s := v + "\"" + rest;
    if v == "" {
      assert s[1..] == rest;
    } else {
      assert s[1..] == v[1..] + "\"" + rest;
      PlainReadsBack(v[1..], rest, strict);
      assert [v[0]] + v[1..] == v;
    }
  }

  // What an element and the text after it make of the rest of an array.
  function Element(r: Option<(string, string)>, strict: bool): Option<(seq<string>, string)> {
    match r
    case None => None
    case Some((v, rest)) =>
      match ReadElements(rest, strict)
      case None => None
      case Some((vs, rest')) => Some(([v] + vs, rest'))
  }

  lemma ElementRead(x: string, after: string, strict: bool)
    ensures ReadElements(", " + (Quoted(x) + after), strict) == Element(ReadString(x + "\"" + after, strict), strict)
  {
    var t := Quoted(x) + after;
    var s := ", " + t;
    assert s[1..] == " " + t && (" " + t)[1..] == t && SkipSpace(t) == t && SkipSpace(s[1..]) == t;
    assert t[1..] == x + "\"" + after;
  }

  lemma {:induction false} TailReadsBack(ss: seq<string>, rest: string, strict: bool)
    requires forall i :: 0 <= i < |ss| ==> AllPlain(ss[i], strict)
    ensures ReadElements(QuotedTail(ss) + "]" + rest, strict) == Some((ss, rest))
  {
    if ss == [] {
      assert (QuotedTail(ss) + "]" + rest)[1..] == rest;
    } else {
      var after := QuotedTail(ss[1..]) + "]" + rest;
      assert QuotedTail(ss) + "]" + rest == ", " + (Quoted(ss[0]) + after);
      ElementRead(ss[0], after, strict);
      PlainReadsBack(ss[0], after, strict);
      TailReadsBack(ss[1..], rest, strict);
      assert [ss[0]] + ss[1..] == ss;
    }
  }

  lemma FirstElementRead(x: string, after: string, strict: bool)
    ensures ReadArray(Quoted(x) + after, strict) == Element(ReadString(x + "\"" + after, strict), strict)
  {
    assert (Quoted(x) + after)[1..] == x + "\"" + after;
  }

  lemma ArrayReadsBack(ss: seq<string>, strict: bool)
    requires forall i :: 0 <= i < |ss| ==> AllPlain(ss[i], strict)
    ensures ReadArray(ShowElements(ss), strict) == Some((ss, ""))
  {
    if ss == [] {
      assert ShowElements(ss)[1..] == "";
    } else {
      var after := QuotedTail(ss[1..]) + "]";
      FirstElementRead(ss[0], after, strict);
      PlainReadsBack(ss[0], after, strict);
      TailReadsBack(ss[1..], "", strict);
      assert after + "" == after && [ss[0]] + ss[1..] == ss;
    }
  }

  lemma {:induction false} DigitRunAll(s: string)
    requires Digits(s)
    ensures DigitRun(s) == |s|
  {
    if s != "" { DigitRunAll(s[1..]); }
  }

  lemma NumeralRun(t: string)
    requires t != "" && Digits(t)
    ensures DigitRun(t) == |t| && t[..DigitRun(t)] == t && t[DigitRun(t)..] == "" && t[0] != '-'
  {
    DigitRunAll(t);
  }

  lemma NumeralReadsBack(t: string, sign: int, strict: bool)
    requires t != "" && Digits(t) && (t[0] == '0' ==> |t| == 1) && (strict ==> -TWO63 <= sign * ValueOf(t) < TWO63)
    ensures ReadNumeral(t, sign, strict) == Some((sign * ValueOf(t), ""))
  {
    NumeralRun(t);
  }

  lemma MinusRead(t: string, strict: bool)
    ensures ReadInteger("-" + t, strict) == ReadNumeral(t, -1, strict)
  {
    assert ("-" + t)[1..] == t;
  }

  lemma IntegerReadsBack(n: int, strict: bool)
    requires strict ==> -TWO63 <= n < TWO63
    ensures ReadInteger(Itoa(n), strict) == Some((n, "")) && IsIntegerStart(Itoa(n))
  {
    var t := FormatUint(if n < 0 then -n else n);
    FormatReadsBack(if n < 0 then -n else n);
    NumeralReadsBack(t, if n < 0 then -1 else 1, strict);
    MinusRead(t, strict);
  }

  predicate IsIntegerStart(s: string) { s != "" && (s[0] == '-' || IsDigit(s[0])) }

  lemma ValueReadsBack(v: Value, strict: bool)
    requires FitsValue(v, strict)
    ensures ReadValue(ShowValue(v), strict) == Some((v, ""))
    ensures ShowValue(v) != "" && SkipSpace(ShowValue(v)) == ShowValue(v)
  {
    var s := ShowValue(v);
    match v
    case Str(x) =>
      assert s[1..] == x + "\"" + "";
      PlainReadsBack(x, "", strict);
    case Int(n) => IntegerReadsBack(n, strict);
    case Bool(b) => assert "true"[4..] == "" && "false"[5..] == "";
    case Strs(ss) =>
      assert s[1..] == ShowElements(ss);
      ArrayReadsBack(ss, strict);
  }

  lemma {:induction false} KeyRunOf(key: string, rest: string)
    requires forall i :: 0 <= i < |key| ==> IsBare(key[i])
    requires rest != "" && !IsBare(rest[0])
    ensures KeyRun(key + rest) == |key|
  {
    if key != "" {
      assert (key + rest)[1..] == key[1..] + rest;
      KeyRunOf(key[1..], rest);
    } else {
      assert key + rest == rest;
    }
  }

  lemma KeySplits(key: string, rest: string)
    requires IsBareKey(key)
    ensures var s := key + " = " + rest;
      KeyRun(s) == |key| && s[..|key|] == key && s[|key|..] == " = " + rest && IsBare(s[0])
  {
    var s := key + " = " + rest;
    assert s == key + (" = " + rest);
    KeyRunOf(key, " = " + rest);
  }

  lemma EqualsSkipped(rest: string)
    ensures var t := SkipSpace(" = " + rest); t != "" && t[0] == '=' && SkipSpace(t[1..]) == SkipSpace(rest)
  {
    var eq := "= " + rest;
    assert (" = " + rest)[1..] == eq && SkipSpace(eq) == eq;
    assert eq[1..] == " " + rest && (" " + rest)[1..] == rest;
  }

  // The part of a pair's line that names the key.
  lemma PairKeyRead(key: string, rest: string, strict: bool)
    requires IsBareKey(key)
    ensures ReadLine(key + " = " + rest, strict) == Bound(key, ReadValue(SkipSpace(rest), strict))
  {
    KeySplits(key, rest);
    EqualsSkipped(rest);
  }

  lemma LineReadsBack(l: Line, strict: bool)
    requires Fits(l, strict)
    ensures ReadLine(ShowLine(l), strict) == Some(l)
  {
    var s := ShowLine(l);
    match l
    case Blank =>
    case Comment(text) => assert s[1..] == text;
    case Header(name) => assert s[1] == name[0] && s[1..|s| - 1] == name;
    case ArrayHeader(name) =>
      assert s[0] == '[' && s[1] == '[' && "[[" <= s && s[2..|s| - 2] == name && s[|s| - 2..] == "]]";
    case Pair(key, value) =>
      PairKeyRead(key, ShowValue(value), strict);
      ValueReadsBack(value, strict);
  }

  lemma ValueHasNoNewline(v: Value, strict: bool)
    requires FitsValue(v, strict)
    ensures '\n' !in ShowValue(v)
  {
    match v
    case Int(n) => IntegerDigits(n);
    case Strs(ss) => if ss != [] { TailHasNoNewline(ss[1..], strict); }
    case _ =>
  }

  lemma IntegerDigits(n: int)
    ensures '\n' !in Itoa(n)
  {
    if n < 0 { assert '\n' !in FormatUint(-n); }
  }

  lemma {:induction false} TailHasNoNewline(ss: seq<string>, strict: bool)
    requires forall i :: 0 <= i < |ss| ==> AllPlain(ss[i], strict)
    ensures '\n' !in QuotedTail(ss)
  {
    if ss != [] { TailHasNoNewline(ss[1..], strict); }
  }

  lemma LineHasNoNewline(l: Line, strict: bool)
    requires Fits(l, strict)
    ensures '\n' !in ShowLine(l)
  {
    match l
    case Pair(key, value) => ValueHasNoNewline(value, strict);
    case _ =>
  }

  function Prepend(ls: seq<Line>, more: Option<seq<Line>>): Option<seq<Line>> {
    match more case None => None case Some(m) => Some(ls + m)
  }

  lemma ReadFirst(x: string, xs: seq<string>, l: Line, strict: bool)
    requires ReadLine(x, strict) == Some(l)
    ensures ReadLines([x] + xs, strict) == Prepend([l], ReadLines(xs, strict))
  {
    assert ([x] + xs)[1..] == xs;
  }

  lemma PrependTwice(l: Line, ls: seq<Line>, more: Option<seq<Line>>)
    ensures Prepend([l], Prepend(ls, more)) == Prepend([l] + ls, more)
  {
    if more.Some? { assert [l] + (ls + more.value) == [l] + ls + more.value; }
  }

  lemma FirstLineReadsBack(l: Line, tail: string, strict: bool)
    requires Fits(l, strict)
    ensures ReadLines(SplitLines(ShowLine(l) + "\n" + tail), strict)
      == Prepend([l], ReadLines(SplitLines(tail), strict))
  {
    LineHasNoNewline(l, strict);
    SplitFirst(ShowLine(l), tail);
    LineReadsBack(l, strict);
    ReadFirst(ShowLine(l), SplitLines(tail), l, strict);
  }

  /** Every document of printable lines is read back line for line, whatever text follows. */
  lemma {:induction false} DocumentReadsBack(ls: seq<Line>, rest: string, strict: bool)
    requires forall i :: 0 <= i < |ls| ==> Fits(ls[i], strict)
    ensures ReadLines(SplitLines(Print(ls) + rest), strict) == Prepend(ls, ReadLines(SplitLines(rest), strict))
  {
    var more := ReadLines(SplitLines(rest), strict);
    if ls == [] {
      assert Print(ls) + rest == rest;
      if more.Some? { assert ls + more.value == more.value; }
    } else {
      var tail := Print(ls[1..]) + rest;
      assert Print(ls) + rest == ShowLine(ls[0]) + "\n" + tail;
      FirstLineReadsBack(ls[0], tail, strict);
      DocumentReadsBack(ls[1..], rest, strict);
      PrependTwice(ls[0], ls[1..], more);
      assert [ls[0]] + ls[1..] == ls;
    }
  }

  // ---- What is not printable is not read back ----

  /** A string that does not stand for itself is not what a reader of its quoted form gets. */
  lemma {:induction false} UnfitStringShorter(v: string, strict: bool)
    requires !AllPlain(v, strict)
    ensures var r := ReadString(v + "\"", strict); r.Some? ==> |r.value.0| < |v|
  {
    var s := v + "\"";
    if Plain(v[0], strict) {
      assert s[1..] == v[1..] + "\"";
      UnfitStringShorter(v[1..], strict);
    } else if v[0] == '\\' {
      StringShorter(s[2..], strict);
    }
  }

  lemma {:induction false} ControlUnread(v: string, rest: string)
    requires AllPlain(v, false) && !AllPlain(v, true)
    ensures ReadString(v + rest, true).None?
  {
    if Plain(v[0], true) {
      assert (v + rest)[1..] == v[1..] + rest;
      ControlUnread(v[1..], rest);
    }
  }

  lemma {:induction false} TailUnread(ss: seq<string>, rest: string)
    requires FitsValue(Strs(ss), false) && !FitsValue(Strs(ss), true)
    ensures ReadElements(QuotedTail(ss) + "]" + rest, true).None?
  {
    var after := QuotedTail(ss[1..]) + "]" + rest;
    assert QuotedTail(ss) + "]" + rest == ", " + (Quoted(ss[0]) + after);
    ElementRead(ss[0], after, true);
    if AllPlain(ss[0], true) {
      PlainReadsBack(ss[0], after, true);
      TailUnread(ss[1..], rest);
    } else {
      assert ss[0] + "\"" + after == ss[0] + ("\"" + after);
      ControlUnread(ss[0], "\"" + after);
    }
  }

  lemma ArrayUnread(ss: seq<string>)
    requires FitsValue(Strs(ss), false) && !FitsValue(Strs(ss), true)
    ensures ReadArray(ShowElements(ss), true).None?
  {
    var after := QuotedTail(ss[1..]) + "]";
    FirstElementRead(ss[0], after, true);
    if AllPlain(ss[0], true) {
      PlainReadsBack(ss[0], after, true);
      TailUnread(ss[1..], "");
      assert after + "" == after;
    } else {
      assert ss[0] + "\"" + after == ss[0] + ("\"" + after);
      ControlUnread(ss[0], "\"" + after);
    }
  }

  lemma IntegerUnread(n: int)
    requires !(-TWO63 <= n < TWO63)
    ensures ReadInteger(Itoa(n), true).None? && IsIntegerStart(Itoa(n))
  {
    var t := FormatUint(if n < 0 then -n else n);
    FormatReadsBack(if n < 0 then -n else n);
    DigitRunAll(t);
    assert t[..|t|] == t;
    if n < 0 { assert Itoa(n)[1..] == t; }
  }

  lemma ValueUnread(v: Value)
    requires FitsValue(v, false) && !FitsValue(v, true)
    ensures ReadValue(ShowValue(v), true).None? && SkipSpace(ShowValue(v)) == ShowValue(v)
  {
    var s := ShowValue(v);
    match v
    case Str(x) =>
      assert s[1..] == x + "\"";
      ControlUnread(x, "\"");
    case Int(n) => IntegerUnread(n);
    case Strs(ss) =>
      assert s[1..] == ShowElements(ss);
      ArrayUnread(ss);
  }

  lemma LineUnread(l: Line)
    requires Fits(l, false) && !Fits(l, true)
    ensures ReadLine(ShowLine(l), true).None?
  {
    PairKeyRead(l.key, ShowValue(l.value), true);
    ValueUnread(l.value);
  }

  lemma ReadNone(x: string, xs: seq<string>, strict: bool)
    requires ReadLine(x, strict).None? || ReadLines(xs, strict).None?
    ensures ReadLines([x] + xs, strict).None?
  {
    assert ([x] + xs)[1..] == xs;
  }

  lemma FirstLineUnread(l: Line, tail: string)
    requires Fits(l, false) && (Fits(l, true) ==> ReadLines(SplitLines(tail), true).None?)
    ensures ReadLines(SplitLines(ShowLine(l) + "\n" + tail), true).None?
  {
    LineHasNoNewline(l, false);
    SplitFirst(ShowLine(l), tail);
    if !Fits(l, true) { LineUnread(l); }
    ReadNone(ShowLine(l), SplitLines(tail), true);
  }

  lemma PrintFirst(ls: seq<Line>, rest: string)
    requires ls != []
    ensures Print(ls) + rest == ShowLine(ls[0]) + "\n" + (Print(ls[1..]) + rest)
  {
  }

  /** A strict reader refuses a document with a line the lenient one alone can read. */
  lemma {:induction false} DocumentUnread(ls: seq<Line>, rest: string)
    requires forall i :: 0 <= i < |ls| ==> Fits(ls[i], false)
    requires exists i :: 0 <= i < |ls| && !Fits(ls[i], true)
    ensures ReadLines(SplitLines(Print(ls) + rest), true).None?
  {
    var tail := Print(ls[1..]) + rest;
    PrintFirst(ls, rest);
    if Fits(ls[0], true) {
      var i :| 0 <= i < |ls| && !Fits(ls[i], true);
      assert ls[1..][i - 1] == ls[i];
      DocumentUnread(ls[1..], rest);
    }
    FirstLineUnread(ls[0], tail);
  }

  // A line that is read as the key bound to some other string, or not at all.
  ghost predicate Misread(line: string, key: string, v: string, strict: bool) {
    var l := ReadLine(line, strict);
    l.Some? ==> l.value.Pair? && l.value.key == key && l.value.value.Str? && l.value.value.s != v
  }

  /** Whatever an unfit string makes of the lines that follow it, the first of them is not read
      as the key bound to that string. */
  lemma UnfitFirstLine(key: string, v: string, rest: string, strict: bool)
    requires IsBareKey(key) && !AllPlain(v, strict)
    ensures var ls := SplitLines(ShowLine(Pair(key, Str(v))) + "\n" + rest);
      ls != [] && Misread(ls[0], key, v, strict)
  {
    if '\n' in v {
      BrokenFirstLine(key, v, rest, strict);
    } else {
      LineWithoutNewline(key, v);
      SplitFirst(ShowLine(Pair(key, Str(v))), rest);
      assert Quoted(v) == "\"" + (v + "\"");
      UnfitLine(key, v, v + "\"", strict);
    }
  }

  lemma BrokenFirstLine(key: string, v: string, rest: string, strict: bool)
    requires IsBareKey(key) && '\n' in v
    ensures var ls := SplitLines(ShowLine(Pair(key, Str(v))) + "\n" + rest);
      ls != [] && Misread(ls[0], key, v, strict)
  {
    var k := Newline(v);
    var text, tail := v[..k], v[k + 1..];
    assert v == text + ("\n" + tail);
    var a, b := key + " = " + ("\"" + text), tail + "\"\n" + rest;
    QuotedAcross(key + " = ", text, tail, rest);
    OpenedOnOneLine(key, text);
    SplitFirst(a, b);
    UnfitLine(key, v, text, strict);
  }

  lemma OpenedOnOneLine(key: string, text: string)
    requires IsBareKey(key) && '\n' !in text
    ensures '\n' !in key + " = " + ("\"" + text)
  {
  }

  lemma QuotedAcross(start: string, text: string, tail: string, rest: string)
    ensures start + Quoted(text + ("\n" + tail)) + "\n" + rest == start + ("\"" + text) + "\n" + (tail + "\"\n" + rest)
  {
    var l := start + Quoted(text + ("\n" + tail)) + "\n" + rest;
    var r := start + ("\"" + text) + "\n" + (tail + "\"\n" + rest);
    assert |l| == |r|;
    assert forall i :: 0 <= i < |l| ==> l[i] == r[i];
  }

  lemma LineWithoutNewline(key: string, v: string)
    requires IsBareKey(key) && '\n' !in v
    ensures '\n' !in ShowLine(Pair(key, Str(v)))
  {
  }

  // `text`: what the line holds after the opening quote - all of v and its closing quote, or
  // a part of v.
  lemma UnfitLine(key: string, v: string, text: string, strict: bool)
    requires IsBareKey(key) && !AllPlain(v, strict)
    requires text == v + "\"" || |text| < |v|
    ensures Misread(key + " = " + ("\"" + text), key, v, strict)
  {
    PairKeyRead(key, "\"" + text, strict);
    assert ("\"" + text)[1..] == text && SkipSpace("\"" + text) == "\"" + text;
    if text == v + "\"" { UnfitStringShorter(v, strict); } else { StringShorter(text, strict); }
  }
}
