/** Reading Elk's input file `elk.in`.  The file is given as its sequence of
    lines (without line terminators); Python's `float()` on a token is a
    parameter `toFloat` that yields None where Python raises ValueError. */
module Elk {
  import opened Py
  import opened Numerics
  import Misc

  // ---------------------------------------------------------------------
  // Tokens: `line.split()` and the conversions applied to its pieces.

  /** The characters `str.split()` separates on, those for which
      `str.isspace()` holds: the ASCII white space \t \n \v \f \r and space,
      the separators 0x1c-0x1f, and the Unicode spaces 0x85, 0xa0, 0x1680,
      0x2000-0x200a, 0x2028, 0x2029, 0x202f, 0x205f and 0x3000. */
  predicate IsSpace(c: char)
  {
    var n := c as int;
    || 0x09 <= n <= 0x0d || 0x1c <= n <= 0x20 || n == 0x85 || n == 0xa0 || n == 0x1680
    || 0x2000 <= n <= 0x200a || n == 0x2028 || n == 0x2029 || n == 0x202f || n == 0x205f || n == 0x3000
  }

  /** A token as `str.split()` yields it: non-empty and free of whitespace. */
  predicate IsWord(t: string)
  {
    t != [] && forall k | 0 <= k < |t| :: !IsSpace(t[k])
  }

  /** The length of the run of non-whitespace characters that starts s. */
  function WordLength(s: string): (k: nat)
    ensures k <= |s|
    ensures forall i | 0 <= i < k :: !IsSpace(s[i])
    ensures k == |s| || IsSpace(s[k])
  {
    if s == [] || IsSpace(s[0]) then 0 else 1 + WordLength(s[1..])
  }

  /** `s.split()`: the maximal runs of non-whitespace characters, in order. */
  function Tokens(s: string): (ts: seq<string>)
    ensures forall i | 0 <= i < |ts| :: IsWord(ts[i])
    decreases |s|
  {
    if s == [] then []
    else if IsSpace(s[0]) then Tokens(s[1..])
    else
      var k := WordLength(s);
      [s[..k]] + Tokens(s[k..])
  }

  /** `" ".join(ts)`. */
  function Unwords(ts: seq<string>): string
  {
    if ts == [] then [] else if |ts| == 1 then ts[0] else ts[0] + " " + Unwords(ts[1..])
  }

  lemma {:induction false} WordLengthOf(t: string, u: string)
    requires IsWord(t)
    requires u == [] || IsSpace(u[0])
    ensures WordLength(t + u) == |t|
    decreases |t|
  {
    if |t| > 1 {
      assert (t + u)[1..] == t[1..] + u;
      WordLengthOf(t[1..], u);
    } else {
      assert (t + u)[1..] == u;
    }
  }

  /** Splitting words joined by blanks gives the words back. */
  lemma {:induction false} TokensUnwords(ts: seq<string>)
    requires forall i | 0 <= i < |ts| :: IsWord(ts[i])
    ensures Tokens(Unwords(ts)) == ts
  {
    if |ts| == 1 {
      WordLengthOf(ts[0], []);
      assert ts[0][..|ts[0]|] == ts[0];
      assert ts[0][|ts[0]|..] == [];
    } else if |ts| > 1 {
      var rest := Unwords(ts[1..]);
      var s := ts[0] + " " + rest;
      WordLengthOf(ts[0], " " + rest);
      assert ts[0] + " " + rest == ts[0] + (" " + rest);
      assert s[..|ts[0]|] == ts[0];
      assert s[|ts[0]|..] == " " + rest;
      assert (" " + rest)[1..] == rest;
      TokensUnwords(ts[1..]);
      assert Tokens(s) == [ts[0]] + ts[1..];
    }
  }

  /** `s.isdecimal()` for ASCII text: non-empty and all decimal digits. */
  predicate IsDecimal(s: string)
  {
    s != [] && forall k | 0 <= k < |s| :: '0' <= s[k] <= '9'
  }

  /** The value of a string of decimal digits. */
  function DecimalValue(s: string): nat
    requires forall k | 0 <= k < |s| :: '0' <= s[k] <= '9'
  {
    if s == [] then 0 else DecimalValue(s[..|s| - 1]) * 10 + (s[|s| - 1] as int - '0' as int)
  }

  /** `str(n)` for a natural number. */
  function DecimalString(n: nat): (s: string)
    ensures IsDecimal(s)
  {
    if n < 10 then [('0' as int + n) as char]
    else DecimalString(n / 10) + [('0' as int + n % 10) as char]
  }

  /** `int(str(n)) == n`. */
  lemma {:induction false} DecimalRoundTrip(n: nat)
    ensures DecimalValue(DecimalString(n)) == n
  {
    if n >= 10 {
      var s := DecimalString(n);
      assert s[..|s| - 1] == DecimalString(n / 10);
      DecimalRoundTrip(n / 10);
    }
  }

  /** `int(s)` for a token: an optional sign followed by decimal digits. */
  function ParseInt(s: string): (r: Option<int>)
    ensures r.Some? <==> IsDecimal(s) || (|s| > 1 && (s[0] == '+' || s[0] == '-') && IsDecimal(s[1..]))
    ensures r.Some? && s[0] != '-' ==> r.value >= 0
    ensures r.Some? && s[0] == '-' ==> r.value <= 0
    ensures IsDecimal(s) ==> r == Some(DecimalValue(s))
  {
    if |s| > 0 && (s[0] == '+' || s[0] == '-') then
      if IsDecimal(s[1..]) then
        var magnitude: int := DecimalValue(s[1..]);
        Some(if s[0] == '-' then -magnitude else magnitude)
      else None
    else if IsDecimal(s) then Some(DecimalValue(s))
    else None
  }

  /** `str(i)` for an integer. */
  function IntString(i: int): string
  {
    if i < 0 then "-" + DecimalString(-i) else DecimalString(i)
  }

  /** `int(str(i)) == i`. */
  lemma ParseIntString(i: int)
    ensures ParseInt(IntString(i)) == Some(i)
  {
    if i < 0 {
      var d := DecimalString(-i);
      var s := "-" + d;
      assert s[0] == '-' && s[1..] == d;
      DecimalRoundTrip(-i);
      var magnitude: int := DecimalValue(d);
      assert ParseInt(s) == Some(-magnitude);
    } else {
      var d := DecimalString(i);
      assert '0' <= d[0] <= '9';
      DecimalRoundTrip(i);
      assert ParseInt(d) == Some(DecimalValue(d));
    }
  }

  /** The rudimentary auto-conversion of one token of a parameter line. */
  function Token(item: string, toFloat: string -> Option<real>): Result<Value>
  {
    if item == ".true." then Ok(Bool(true))
    else if item == ".false." then Ok(Bool(false))
    else if '.' in item then
      match toFloat(item)
      case None => Raise(ValueError)
      case Some(x) => Ok(Float(x))
    else if IsDecimal(item) then Ok(Int(DecimalValue(item)))
    else Ok(Str(item))
  }

  /** The conversions are tried in order: the two logical literals, then
      anything with a dot as a float, then decimal digits as an integer;
      every other token stays a string.  Only a float conversion can fail. */
  lemma TokenKinds(item: string, toFloat: string -> Option<real>)
    ensures var r := Token(item, toFloat);
      && (r.Raise? <==> item != ".true." && item != ".false." && '.' in item && toFloat(item).None?)
      && (r.Raise? ==> r.exc == ValueError)
      && (r.Ok? ==>
            && (r.value.Bool? <==> item == ".true." || item == ".false.")
            && (r.value.Bool? ==> (r.value.b <==> item == ".true."))
            && (r.value.Float? <==> item != ".true." && item != ".false." && '.' in item)
            && (r.value.Float? ==> Some(r.value.x) == toFloat(item))
            && (r.value.Int? <==> IsDecimal(item))
            && (r.value.Str? <==> !IsDecimal(item) && '.' !in item)
            && (r.value.Str? ==> r.value.s == item))
  {
    if IsDecimal(item) {
      assert '.' !in item;
    }
  }

  /** Converting every token of a list in turn; the first failure is raised. */
  function ConvertTokens(ts: seq<string>, toFloat: string -> Option<real>): (r: Result<seq<Value>>)
    ensures r.Ok? <==> forall i | 0 <= i < |ts| :: Token(ts[i], toFloat).Ok?
    ensures r.Raise? ==> r.exc == ValueError
    ensures r.Ok? ==> |r.value| == |ts| && forall i | 0 <= i < |ts| :: Token(ts[i], toFloat) == Ok(r.value[i])
  {
    if ts == [] then Ok([])
    else
      var init := ts[..|ts| - 1];
      match ConvertTokens(init, toFloat)
      case Raise(e) =>
        assert exists i | 0 <= i < |init| :: Token(init[i], toFloat).Raise?;
        Raise(e)
      case Ok(vs) =>
        match Token(ts[|ts| - 1], toFloat)
        case Raise(e) => Raise(e)
        case Ok(v) =>
          assert forall i | 0 <= i < |init| :: ts[i] == init[i];
          Ok(vs + [v])
  }

  /** A single value is returned as itself, several as a list. */
  function Collapse(vs: seq<Value>): Value
  {
    if |vs| == 1 then vs[0] else List(vs)
  }

  // ---------------------------------------------------------------------
  // readElkInputParameter

  /** The scan of `for line in f: if line.startswith(key): p = next(f)`:
      from line i on, with `found` the index of the value line taken so far.
      A matching line consumes the next line, which is therefore never compared
      itself; a match on the last line makes `next` raise StopIteration. */
  function ScanForValue(lines: seq<string>, key: string, i: nat, found: Option<nat>): (r: Result<Option<nat>>)
    requires i <= |lines|
    requires found.Some? ==> 0 < found.value < |lines|
    ensures r.Ok? && r.value.Some? ==> 0 < r.value.value < |lines|
    ensures r.Raise? ==> r.exc == StopIteration
    decreases |lines| - i
  {
    if i == |lines| then Ok(found)
    else if Misc.StartsWith(lines[i], key) then
      if i + 1 == |lines| then Raise(StopIteration)
      else ScanForValue(lines, key, i + 2, Some(i + 1))
    else ScanForValue(lines, key, i + 1, found)
  }

  /** What the scan finds, by induction from line i. */
  lemma {:induction false} ScanFacts(lines: seq<string>, key: string, i: nat, found: Option<nat>)
    requires i <= |lines|
    requires found.Some? ==> 0 < found.value < i
    requires found.Some? ==> Misc.StartsWith(lines[found.value - 1], key)
    requires found.Some? ==> forall j | found.value < j < i :: !Misc.StartsWith(lines[j], key)
    requires found.None? ==> forall j | 0 <= j < i :: !Misc.StartsWith(lines[j], key)
    ensures var r := ScanForValue(lines, key, i, found);
      && (r == Ok(None) <==> forall j | 0 <= j < |lines| :: !Misc.StartsWith(lines[j], key))
      && (r.Ok? && r.value.Some? ==>
            && Misc.StartsWith(lines[r.value.value - 1], key)
            && forall j | r.value.value < j < |lines| :: !Misc.StartsWith(lines[j], key))
      && (r.Raise? ==> Misc.StartsWith(lines[|lines| - 1], key))
    decreases |lines| - i
  {
    if i < |lines| {
      if Misc.StartsWith(lines[i], key) {
        if i + 1 < |lines| {
          ScanFacts(lines, key, i + 2, Some(i + 1));
        }
      } else {
        ScanFacts(lines, key, i + 1, found);
      }
    }
  }

  /** `readElkInputParameter(parameter)` on the lines of elk.in. */
  function ElkInputParameter(lines: seq<string>, parameter: string, toFloat: string -> Option<real>): (r: Result<Value>)
    ensures r.Raise? ==> r.exc == NameError || r.exc == StopIteration || r.exc == ValueError
  {
    match ScanForValue(lines, parameter, 0, None)
    case Raise(e) => Raise(e)
    case Ok(None) => Raise(NameError)
    case Ok(Some(v)) =>
      var vs :- ConvertTokens(Tokens(lines[v]), toFloat);
      Ok(Collapse(vs))
  }

  /** The lookup raises NameError exactly when no line starts with the
      parameter; otherwise it reads the line after the last line that starts
      with it, unless that line is the last one (StopIteration). */
  lemma ParameterLookup(lines: seq<string>, parameter: string, toFloat: string -> Option<real>)
    ensures var r := ElkInputParameter(lines, parameter, toFloat);
      r == Raise(NameError) <==> forall j | 0 <= j < |lines| :: !Misc.StartsWith(lines[j], parameter)
    ensures var s := ScanForValue(lines, parameter, 0, None);
      && (s.Ok? && s.value.Some? ==>
            && Misc.StartsWith(lines[s.value.value - 1], parameter)
            && forall j | s.value.value < j < |lines| :: !Misc.StartsWith(lines[j], parameter))
      && (s.Raise? ==> ElkInputParameter(lines, parameter, toFloat) == Raise(StopIteration)
                       && Misc.StartsWith(lines[|lines| - 1], parameter))
  {
    ScanFacts(lines, parameter, 0, None);
  }

  /** A one-token value line gives that token's value, any other a list of
      the converted tokens, as many as the line has. */
  lemma ParameterValue(lines: seq<string>, parameter: string, toFloat: string -> Option<real>, v: nat)
    requires ScanForValue(lines, parameter, 0, None) == Ok(Some(v))
    ensures var ts := Tokens(lines[v]);
      var r := ElkInputParameter(lines, parameter, toFloat);
      && (r.Ok? <==> forall i | 0 <= i < |ts| :: Token(ts[i], toFloat).Ok?)
      && (r.Ok? && |ts| == 1 ==> Token(ts[0], toFloat) == r)
      && (r.Ok? && |ts| != 1 ==>
            r.value.List? && |r.value.items| == |ts|
            && forall i | 0 <= i < |ts| :: Token(ts[i], toFloat) == Ok(r.value.items[i]))
  {
  }

  /** The line scan and the in-place conversion of the token list. */
  method ReadElkInputParameter(lines: seq<string>, parameter: string, toFloat: string -> Option<real>)
    returns (r: Result<Value>)
    ensures r == ElkInputParameter(lines, parameter, toFloat)
  {
    var p: Option<seq<string>> := None;
    ghost var at: Option<nat> := None;
    var i := 0;
    while i < |lines|
      invariant i <= |lines|
      invariant at.Some? ==> 0 < at.value < |lines|
      invariant p == if at.Some? then Some(Tokens(lines[at.value])) else None
      invariant ScanForValue(lines, parameter, i, at) == ScanForValue(lines, parameter, 0, None)
      decreases |lines| - i
    {
      if Misc.StartsWith(lines[i], parameter) {
        if i + 1 == |lines| {
          return Raise(StopIteration);
        }
        p := Some(Tokens(lines[i + 1]));
        at := Some(i + 1);
        i := i + 2;
      } else {
        i := i + 1;
      }
    }
    if p.None? {
      return Raise(NameError);
    }
    var items := p.value;
    var vals := seq(|items|, k requires 0 <= k < |items| => Str(items[k]));
    for idx := 0 to |items|
      invariant |vals| == |items|
      invariant ConvertTokens(items[..idx], toFloat) == Ok(vals[..idx])
      invariant forall k | idx <= k < |items| :: vals[k] == Str(items[k])
    {
      var item := items[idx];
      assert items[..idx + 1][..idx] == items[..idx];
      if item == ".true." {
        vals := vals[idx := Bool(true)];
      } else if item == ".false." {
        vals := vals[idx := Bool(false)];
      } else if '.' in item {
        var x := toFloat(item);
        if x.None? {
          assert Token(items[idx], toFloat).Raise?;
          return Raise(ValueError);
        }
        vals := vals[idx := Float(x.value)];
      } else if IsDecimal(item) {
        vals := vals[idx := Int(DecimalValue(item))];
      }
      assert vals[..idx + 1] == vals[..idx] + [vals[idx]];
    }
    assert items[..|items|] == items && vals[..|vals|] == vals;
    if |vals| == 1 {
      r := Ok(vals[0]);
    } else {
      r := Ok(List(vals));
    }
  }

  // ---------------------------------------------------------------------
  // parseElkInput

  /** The first token of a line as an integer: `int(line.split()[0])`. */
  function FirstInt(line: string): Result<int>
  {
    var ts := Tokens(line);
    if ts == [] then Raise(IndexError)
    else match ParseInt(ts[0])
      case None => Raise(ValueError)
      case Some(n) => Ok(n)
  }

  /** The first token of a line as a float: `float(line.split()[0])`. */
  function FirstFloat(line: string, toFloat: string -> Option<real>): Result<real>
  {
    var ts := Tokens(line);
    if ts == [] then Raise(IndexError)
    else match toFloat(ts[0])
      case None => Raise(ValueError)
      case Some(x) => Ok(x)
  }

  /** `[float(n) for n in ts]`. */
  function Floats(ts: seq<string>, toFloat: string -> Option<real>): (r: Result<seq<Value>>)
    ensures r.Ok? <==> forall i | 0 <= i < |ts| :: toFloat(ts[i]).Some?
    ensures r.Raise? ==> r.exc == ValueError
    ensures r.Ok? ==> |r.value| == |ts| && forall i | 0 <= i < |ts| :: r.value[i] == Float(toFloat(ts[i]).value)
  {
    if ts == [] then Ok([])
    else
      match toFloat(ts[0])
      case None => Raise(ValueError)
      case Some(x) =>
        match Floats(ts[1..], toFloat)
        case Raise(e) =>
          assert exists i | 0 <= i < |ts[1..]| :: toFloat(ts[1..][i]).None?;
          Raise(e)
        case Ok(rest) =>
          assert forall i | 1 <= i < |ts| :: ts[i] == ts[1..][i - 1];
          Ok([Float(x)] + rest)
  }

  /** `[int(n) for n in ts]`. */
  function Ints(ts: seq<string>): (r: Result<seq<Value>>)
    ensures r.Ok? <==> forall i | 0 <= i < |ts| :: ParseInt(ts[i]).Some?
    ensures r.Ok? ==> |r.value| == |ts| && forall i | 0 <= i < |ts| :: r.value[i] == Int(ParseInt(ts[i]).value)
  {
    if ts == [] then Ok([])
    else
      match ParseInt(ts[0])
      case None => Raise(ValueError)
      case Some(n) =>
        match Ints(ts[1..])
        case Raise(e) =>
          assert exists i | 0 <= i < |ts[1..]| :: ParseInt(ts[1..][i]).None?;
          Raise(e)
        case Ok(rest) =>
          assert forall i | 1 <= i < |ts| :: ts[i] == ts[1..][i - 1];
          Ok([Int(n)] + rest)
  }

  /** The slice `ts[0:2]`. */
  function Take2(ts: seq<string>): seq<string>
  {
    if |ts| <= 2 then ts else ts[..2]
  }

  /** The line prefixes parseElkInput reacts to, in the order it tests them. */
  const Heads: seq<string> := ["wplot", "vecql", "scale", "swidth", "avec", "ngridk"]

  /** The parameters a section sets. */
  function SectionFields(head: string): set<string>
  {
    if head == "wplot" then {"nwplot", "wplot"}
    else if head == "vecql" then {"vecql"}
    else if head == "scale" then {"scale"}
    else if head == "swidth" then {"swidth"}
    else if head == "avec" then {"a1", "a2", "a3"}
    else if head == "ngridk" then {"ngridk"}
    else {}
  }

  const AllSectionFields: set<string> := {"nwplot", "wplot", "vecql", "scale", "swidth", "a1", "a2", "a3", "ngridk"}

  /** `next(f)` for the line at index j. */
  function NextLine(lines: seq<string>, j: nat): Result<string>
  {
    if j < |lines| then Ok(lines[j]) else Raise(StopIteration)
  }

  /** The "wplot" branch: nwplot from the next line, wplot from the one after. */
  function WplotLines(lines: seq<string>, i: nat, par: map<string, Value>, toFloat: string -> Option<real>)
    : (r: Result<(nat, map<string, Value>)>)
    ensures r.Ok? ==> r.value.0 == i + 3 <= |lines| && r.value.1.Keys == par.Keys + SectionFields("wplot")
    ensures r.Ok? ==> forall k | k in par && k !in SectionFields("wplot") :: r.value.1[k] == par[k]
  {
    var counts :- NextLine(lines, i + 1);
    var n :- FirstInt(counts);
    var range :- NextLine(lines, i + 2);
    var w :- Floats(Take2(Tokens(range)), toFloat);
    Ok((i + 3, par["nwplot" := Int(n)]["wplot" := List(w)]))
  }

  /** The "vecql" branch. */
  function VecqlLines(lines: seq<string>, i: nat, par: map<string, Value>, toFloat: string -> Option<real>)
    : (r: Result<(nat, map<string, Value>)>)
    ensures r.Ok? ==> r.value.0 == i + 2 <= |lines| && r.value.1.Keys == par.Keys + SectionFields("vecql")
    ensures r.Ok? ==> forall k | k in par && k !in SectionFields("vecql") :: r.value.1[k] == par[k]
  {
    var line :- NextLine(lines, i + 1);
    var q :- Floats(Tokens(line), toFloat);
    Ok((i + 2, par["vecql" := List(q)]))
  }

  /** The "scale" and "swidth" branches: one float under the name `key`. */
  function FloatLine(lines: seq<string>, i: nat, par: map<string, Value>, toFloat: string -> Option<real>, key: string)
    : (r: Result<(nat, map<string, Value>)>)
    ensures r.Ok? ==> r.value.0 == i + 2 <= |lines| && r.value.1.Keys == par.Keys + {key}
    ensures r.Ok? ==> forall k | k in par && k != key :: r.value.1[k] == par[k]
  {
    var line :- NextLine(lines, i + 1);
    var x :- FirstFloat(line, toFloat);
    Ok((i + 2, par[key := Float(x)]))
  }

  /** The "avec" branch: three lattice vectors from the next three lines. */
  function AvecLines(lines: seq<string>, i: nat, par: map<string, Value>, toFloat: string -> Option<real>)
    : (r: Result<(nat, map<string, Value>)>)
    ensures r.Ok? ==> r.value.0 == i + 4 <= |lines| && r.value.1.Keys == par.Keys + SectionFields("avec")
    ensures r.Ok? ==> forall k | k in par && k !in SectionFields("avec") :: r.value.1[k] == par[k]
  {
    var l1 :- NextLine(lines, i + 1);
    var a1 :- Floats(Tokens(l1), toFloat);
    var l2 :- NextLine(lines, i + 2);
    var a2 :- Floats(Tokens(l2), toFloat);
    var l3 :- NextLine(lines, i + 3);
    var a3 :- Floats(Tokens(l3), toFloat);
    Ok((i + 4, par["a1" := List(a1)]["a2" := List(a2)]["a3" := List(a3)]))
  }

  /** The "ngridk" branch. */
  function NgridkLines(lines: seq<string>, i: nat, par: map<string, Value>)
    : (r: Result<(nat, map<string, Value>)>)
    ensures r.Ok? ==> r.value.0 == i + 2 <= |lines| && r.value.1.Keys == par.Keys + SectionFields("ngridk")
    ensures r.Ok? ==> forall k | k in par && k !in SectionFields("ngridk") :: r.value.1[k] == par[k]
  {
    var line :- NextLine(lines, i + 1);
    var k :- Ints(Tokens(line));
    Ok((i + 2, par["ngridk" := List(k)]))
  }

  /** The heading a line opens: the first of Heads it starts with, if any. */
  function HeadOf(line: string): (h: string)
    ensures h == "" || (h in Heads && Misc.StartsWith(line, h))
  {
    if Misc.StartsWith(line, "wplot") then "wplot"
    else if Misc.StartsWith(line, "vecql") then "vecql"
    else if Misc.StartsWith(line, "scale") then "scale"
    else if Misc.StartsWith(line, "swidth") then "swidth"
    else if Misc.StartsWith(line, "avec") then "avec"
    else if Misc.StartsWith(line, "ngridk") then "ngridk"
    else ""
  }

  /** One turn of the line loop at line i: the next line index and the
      updated parameters.  `next(f)` past the end raises StopIteration, `[0]`
      of an empty line IndexError and a bad number ValueError. */
  function Section(lines: seq<string>, i: nat, par: map<string, Value>, toFloat: string -> Option<real>)
    : (r: Result<(nat, map<string, Value>)>)
    requires i < |lines|
    ensures r.Ok? ==> i < r.value.0 <= |lines|
  {
    var head := HeadOf(lines[i]);
    if head == "wplot" then WplotLines(lines, i, par, toFloat)
    else if head == "vecql" then VecqlLines(lines, i, par, toFloat)
    else if head == "scale" then FloatLine(lines, i, par, toFloat, "scale")
    else if head == "swidth" then FloatLine(lines, i, par, toFloat, "swidth")
    else if head == "avec" then AvecLines(lines, i, par, toFloat)
    else if head == "ngridk" then NgridkLines(lines, i, par)
    else Ok((i + 1, par))
  }

  /** `p` and `q` agree outside the names `fs`. */
  ghost predicate SameOutside(p: map<string, Value>, q: map<string, Value>, fs: set<string>)
  {
    forall k | k !in fs :: (k in p <==> k in q) && (k in p ==> p[k] == q[k])
  }

  /** One turn changes only the parameters of the heading its line opens. */
  lemma SectionScope(lines: seq<string>, i: nat, par: map<string, Value>, toFloat: string -> Option<real>)
    requires i < |lines|
    ensures var r := Section(lines, i, par, toFloat);
      r.Ok? ==> SameOutside(r.value.1, par, SectionFields(HeadOf(lines[i])))
  {
  }

  /** Distinct headings have disjoint parameters, and all are section parameters. */
  lemma HeadFields(h: string, g: string)
    requires h in Heads && (g in Heads || g == "")
    ensures SectionFields(h) <= AllSectionFields
    ensures h != g ==> SectionFields(h) !! SectionFields(g)
  {
  }

  /** No section parameter looks like a "---" heading. */
  lemma FieldsNotHeadings()
    ensures forall k | k in AllSectionFields :: !Misc.StartsWith(k, "---")
  {
    forall k | k in AllSectionFields
      ensures !Misc.StartsWith(k, "---")
    {
      assert k[0] != '-';
    }
  }

  /** The line loop from line i on. */
  function ParseFrom(lines: seq<string>, i: nat, par: map<string, Value>, toFloat: string -> Option<real>)
    : Result<map<string, Value>>
    requires i <= |lines|
    decreases |lines| - i
  {
    if i == |lines| then Ok(par)
    else
      var s :- Section(lines, i, par, toFloat);
      ParseFrom(lines, s.0, s.1, toFloat)
  }

  /** The default table without its "---" section headings. */
  function Stripped(defaults: map<string, Value>): (par: map<string, Value>)
    ensures forall k | k in par :: !Misc.StartsWith(k, "---")
    ensures forall k | k in defaults && !Misc.StartsWith(k, "---") :: k in par && par[k] == defaults[k]
    ensures par.Keys <= defaults.Keys
  {
    map k | k in defaults && !Misc.StartsWith(k, "---") :: defaults[k]
  }

  /** `parseElkInput()` on the lines of elk.in, starting from the defaults. */
  function ParseElkInputOf(defaults: map<string, Value>, lines: seq<string>, toFloat: string -> Option<real>)
    : (r: Result<map<string, Value>>)
    ensures r.Ok? ==> forall k | k in r.value :: !Misc.StartsWith(k, "---")
    ensures r.Ok? ==> r.value.Keys <= defaults.Keys + AllSectionFields
  {
    var base := Stripped(defaults);
    ParseFromFramed(lines, 0, base, toFloat, base);
    FieldsNotHeadings();
    ParseFrom(lines, 0, base, toFloat)
  }

  /** Removes the "---" keys from a copy of the defaults, then runs the line loop. */
  method ParseElkInput(defaults: map<string, Value>, lines: seq<string>, toFloat: string -> Option<real>)
    returns (r: Result<map<string, Value>>)
    ensures r == ParseElkInputOf(defaults, lines, toFloat)
  {
    var par := defaults;
    var keys := defaults.Keys;
    while keys != {}
      invariant keys <= defaults.Keys
      invariant par.Keys <= defaults.Keys
      invariant forall k | k in defaults :: k in par <==> k in keys || !Misc.StartsWith(k, "---")
      invariant forall k | k in par :: par[k] == defaults[k]
      decreases keys
    {
      var k :| k in keys;
      if Misc.StartsWith(k, "---") {
        par := par - {k};
      }
      keys := keys - {k};
    }
    assert par == Stripped(defaults);
    var i := 0;
    while i < |lines|
      invariant i <= |lines|
      invariant ParseFrom(lines, i, par, toFloat) == ParseElkInputOf(defaults, lines, toFloat)
      decreases |lines| - i
    {
      var line := lines[i];
      if Misc.StartsWith(line, "wplot") {
        if i + 1 == |lines| { return Raise(StopIteration); }
        var n := FirstInt(lines[i + 1]);
        if n.Raise? { return Raise(n.exc); }
        if i + 2 == |lines| { return Raise(StopIteration); }
        var w := Floats(Take2(Tokens(lines[i + 2])), toFloat);
        if w.Raise? { return Raise(w.exc); }
        par := par["nwplot" := Int(n.value)];
        par := par["wplot" := List(w.value)];
        i := i + 3;
      } else if Misc.StartsWith(line, "vecql") {
        if i + 1 == |lines| { return Raise(StopIteration); }
        var q := Floats(Tokens(lines[i + 1]), toFloat);
        if q.Raise? { return Raise(q.exc); }
        par := par["vecql" := List(q.value)];
        i := i + 2;
      } else if Misc.StartsWith(line, "scale") || Misc.StartsWith(line, "swidth") {
        var key := if Misc.StartsWith(line, "scale") then "scale" else "swidth";
        if i + 1 == |lines| { return Raise(StopIteration); }
        var x := FirstFloat(lines[i + 1], toFloat);
        if x.Raise? { return Raise(x.exc); }
        par := par[key := Float(x.value)];
        i := i + 2;
      } else if Misc.StartsWith(line, "avec") {
        if i + 1 == |lines| { return Raise(StopIteration); }
        var a1 := Floats(Tokens(lines[i + 1]), toFloat);
        if a1.Raise? { return Raise(a1.exc); }
        if i + 2 == |lines| { return Raise(StopIteration); }
        var a2 := Floats(Tokens(lines[i + 2]), toFloat);
        if a2.Raise? { return Raise(a2.exc); }
        if i + 3 == |lines| { return Raise(StopIteration); }
        var a3 := Floats(Tokens(lines[i + 3]), toFloat);
        if a3.Raise? { return Raise(a3.exc); }
        par := par["a1" := List(a1.value)];
        par := par["a2" := List(a2.value)];
        par := par["a3" := List(a3.value)];
        i := i + 4;
      } else if Misc.StartsWith(line, "ngridk") {
        if i + 1 == |lines| { return Raise(StopIteration); }
        var k := Ints(Tokens(lines[i + 1]));
        if k.Raise? { return Raise(k.exc); }
        par := par["ngridk" := List(k.value)];
        i := i + 2;
      } else {
        i := i + 1;
      }
    }
    r := Ok(par);
  }

  /** `par` is `base` outside the section parameters and holds no other keys. */
  predicate Framed(par: map<string, Value>, base: map<string, Value>)
  {
    && par.Keys <= base.Keys + AllSectionFields
    && forall k | k in base && k !in AllSectionFields :: k in par && par[k] == base[k]
  }

  lemma {:induction false} ParseFromFramed(lines: seq<string>, i: nat, par: map<string, Value>,
                                           toFloat: string -> Option<real>, base: map<string, Value>)
    requires i <= |lines|
    requires Framed(par, base)
    ensures var r := ParseFrom(lines, i, par, toFloat); r.Ok? ==> Framed(r.value, base)
    decreases |lines| - i
  {
    if i < |lines| {
      var s := Section(lines, i, par, toFloat);
      if s.Ok? {
        var head := HeadOf(lines[i]);
        SectionScope(lines, i, par, toFloat);
        if head != "" {
          HeadFields(head, "");
        }
        ParseFromFramed(lines, s.value.0, s.value.1, toFloat, base);
      }
    }
  }

  /** The parsed table keeps every default that is neither a "---" heading
      nor a section parameter, drops the headings, and adds only section
      parameters. */
  lemma ParsedKeys(defaults: map<string, Value>, lines: seq<string>, toFloat: string -> Option<real>)
    ensures var r := ParseElkInputOf(defaults, lines, toFloat);
      r.Ok? ==>
        && (forall k | k in r.value :: !Misc.StartsWith(k, "---"))
        && (forall k | k in defaults && !Misc.StartsWith(k, "---") && k !in AllSectionFields ::
              k in r.value && r.value[k] == defaults[k])
        && r.value.Keys <= defaults.Keys + AllSectionFields
  {
    var base := Stripped(defaults);
    ParseFromFramed(lines, 0, base, toFloat, base);
    FieldsNotHeadings();
  }

  /** `par` and `base` agree on the parameters of `head`. */
  predicate AgreeOn(par: map<string, Value>, base: map<string, Value>, head: string)
  {
    forall k | k in SectionFields(head) :: (k in par <==> k in base) && (k in base ==> par[k] == base[k])
  }

  lemma {:induction false} ParseFromUntouched(lines: seq<string>, i: nat, par: map<string, Value>,
                                              toFloat: string -> Option<real>, base: map<string, Value>, head: string)
    requires head in Heads
    requires i <= |lines|
    requires AgreeOn(par, base, head)
    requires forall j | i <= j < |lines| :: !Misc.StartsWith(lines[j], head)
    ensures var r := ParseFrom(lines, i, par, toFloat); r.Ok? ==> AgreeOn(r.value, base, head)
    decreases |lines| - i
  {
    if i < |lines| {
      var s := Section(lines, i, par, toFloat);
      if s.Ok? {
        SectionScope(lines, i, par, toFloat);
        HeadFields(head, HeadOf(lines[i]));
        ParseFromUntouched(lines, s.value.0, s.value.1, toFloat, base, head);
      }
    }
  }

  /** A section whose heading starts no line leaves its parameters at their defaults. */
  lemma UnmatchedKeepDefaults(defaults: map<string, Value>, lines: seq<string>, toFloat: string -> Option<real>, head: string)
    requires head in Heads
    requires forall j | 0 <= j < |lines| :: !Misc.StartsWith(lines[j], head)
    ensures var r := ParseElkInputOf(defaults, lines, toFloat);
      r.Ok? ==> forall k | k in SectionFields(head) ::
        (k in r.value <==> k in defaults) && (k in defaults ==> r.value[k] == defaults[k])
  {
    var base := Stripped(defaults);
    HeadFields(head, "");
    FieldsNotHeadings();
    ParseFromUntouched(lines, 0, base, toFloat, base, head);
  }

  /** A "wplot" heading takes the number of frequencies from the first token
      of the next line and the frequency range from the first two tokens of
      the line after it. */
  lemma WplotSection(defaults: map<string, Value>, head: string, counts: string, range: string,
                     toFloat: string -> Option<real>, n: int, w: seq<Value>)
    requires Misc.StartsWith(head, "wplot")
    requires FirstInt(counts) == Ok(n)
    requires Floats(Take2(Tokens(range)), toFloat) == Ok(w)
    ensures |w| <= 2
    ensures ParseElkInputOf(defaults, [head, counts, range], toFloat)
            == Ok(Stripped(defaults)["nwplot" := Int(n)]["wplot" := List(w)])
  {
    var lines := [head, counts, range];
    var par := Stripped(defaults)["nwplot" := Int(n)]["wplot" := List(w)];
    assert NextLine(lines, 1) == Ok(counts) && NextLine(lines, 2) == Ok(range);
    assert WplotLines(lines, 0, Stripped(defaults), toFloat) == Ok((3, par));
    assert Section(lines, 0, Stripped(defaults), toFloat) == Ok((3, par));
    assert ParseFrom(lines, 3, par, toFloat) == Ok(par);
  }

  /** An "avec" heading reads the three lattice vectors from the next three lines. */
  lemma AvecSection(defaults: map<string, Value>, head: string, l1: string, l2: string, l3: string,
                    toFloat: string -> Option<real>, a1: seq<Value>, a2: seq<Value>, a3: seq<Value>)
    requires Misc.StartsWith(head, "avec")
    requires Floats(Tokens(l1), toFloat) == Ok(a1)
    requires Floats(Tokens(l2), toFloat) == Ok(a2)
    requires Floats(Tokens(l3), toFloat) == Ok(a3)
    ensures ParseElkInputOf(defaults, [head, l1, l2, l3], toFloat)
            == Ok(Stripped(defaults)["a1" := List(a1)]["a2" := List(a2)]["a3" := List(a3)])
  {
    var lines := [head, l1, l2, l3];
    var par := Stripped(defaults)["a1" := List(a1)]["a2" := List(a2)]["a3" := List(a3)];
    assert head[0] == 'a';
    assert HeadOf(head) == "avec";
    assert NextLine(lines, 1) == Ok(l1) && NextLine(lines, 2) == Ok(l2) && NextLine(lines, 3) == Ok(l3);
    assert AvecLines(lines, 0, Stripped(defaults), toFloat) == Ok((4, par));
    assert Section(lines, 0, Stripped(defaults), toFloat) == Ok((4, par));
    assert ParseFrom(lines, 4, par, toFloat) == Ok(par);
    assert ParseFrom(lines, 0, Stripped(defaults), toFloat) == Ok(par);
  }

  // ---------------------------------------------------------------------
  // ElkInput

  /** A Python number as a real: ints and floats. */
  function Number(v: Value): Option<real>
  {
    match v
    case Int(i) => Some(i as real)
    case Float(x) => Some(x)
    case _ => None
  }

  /** A list of three numbers. */
  predicate IsVector(v: Value)
  {
    v.List? && |v.items| == 3 && forall i | 0 <= i < 3 :: Number(v.items[i]).Some?
  }

  function VectorOf(v: Value): Vec3
    requires IsVector(v)
  {
    [Number(v.items[0]).value, Number(v.items[1]).value, Number(v.items[2]).value]
  }

  /** The parameters ElkInput derives its fields from, with the types numpy
      needs for the arithmetic. */
  predicate Derivable(par: map<string, Value>)
  {
    && "nwplot" in par
    && "wplot" in par && par["wplot"].List? && |par["wplot"].items| >= 2
    && Number(par["wplot"].items[0]).Some? && Number(par["wplot"].items[1]).Some?
    && "scale" in par && Number(par["scale"]).Some?
    && "swidth" in par
    && "a1" in par && IsVector(par["a1"])
    && "a2" in par && IsVector(par["a2"])
    && "a3" in par && IsVector(par["a3"])
    && "vecql" in par && IsVector(par["vecql"])
    && "ngridk" in par
  }

  /** The parsed parameters ElkInput reads, as numbers and vectors. */
  datatype Parameters = Parameters(
    nwplot: Value, wplot: seq<Value>, wmin: real, wmax: real, scale: real, swidth: Value,
    avec: RMat, vecql: Vec3, ngridk: Value)

  function ParametersOf(par: map<string, Value>): (p: Parameters)
    requires Derivable(par)
  {
    Parameters(
      par["nwplot"], par["wplot"].items,
      Number(par["wplot"].items[0]).value, Number(par["wplot"].items[1]).value,
      Number(par["scale"]).value, par["swidth"],
      [VectorOf(par["a1"]), VectorOf(par["a2"]), VectorOf(par["a3"])],
      VectorOf(par["vecql"]), par["ngridk"])
  }

  /** `A = avec.T * scale`: the lattice vectors as columns, scaled. */
  function CellMatrix(avec: RMat, scale: real): RMat
  {
    RScale(scale, RTranspose(avec))
  }

  /** `B = 2 pi inv(A.T)`, with numpy's matrix inverse given as `inv`. */
  function ReciprocalMatrix(a: RMat, inv: RMat -> RMat): RMat
  {
    RScale(2.0 * Pi, inv(RTranspose(a)))
  }

  /** When `inv` inverts A.T, the two lattices are dual: A.T B = 2 pi I. */
  lemma LatticeDuality(a: RMat, inv: RMat -> RMat)
    requires RMul(RTranspose(a), inv(RTranspose(a))) == RIdentity()
    ensures RMul(RTranspose(a), ReciprocalMatrix(a, inv)) == RScale(2.0 * Pi, RIdentity())
  {
    RMulScaleRight(RTranspose(a), 2.0 * Pi, inv(RTranspose(a)));
  }

  /** The real-space cell volume is the scale cubed times the determinant of
      the unscaled lattice vectors. */
  lemma CellVolume(avec: RMat, scale: real)
    ensures Det(CellMatrix(avec, scale)) == scale * scale * scale * Det(avec)
  {
    DetScale(scale, RTranspose(avec));
    DetTranspose(avec);
  }

  /** `np.linalg.norm(q)`, with numpy's square root given as `sqrt`. */
  function Length(sqrt: real -> real, q: Vec3): real
  {
    sqrt(Norm2(q))
  }

  /** `x ** 2`. */
  function Square(x: real): real
  {
    x * x
  }

  /** With an exact square root, qabs2 is the squared norm of the cartesian q. */
  lemma QNormSquared(sqrt: real -> real, q: Vec3)
    requires IsSqrt(sqrt)
    ensures Square(Length(sqrt, q)) == Norm2(q)
    ensures Length(sqrt, q) >= 0.0
  {
    Norm2NonNegative(q);
  }

  /** The parsed input together with the quantities derived from it. */
  class ElkInput {
    var path: string
    var nwplot: Value
    var numfreqs: Value
    var wplot: seq<Value>
    var minw: real
    var maxw: real
    var scale: real
    var swidth: Value
    var avec: RMat
    var A: RMat
    var B: RMat
    var bvec: RMat
    var volReal: real
    var volReci: real
    var vecql: Vec3
    var qFrac: Vec3
    var qCart: Vec3
    var qabs: real
    var qabs2: real
    var ngridk: Value

    /** `ElkInput(path)` from the parsed parameters; `cwd` stands for
        `os.getcwd()`, `inv` and `sqrt` for numpy's inverse and square root. */
    constructor (p: Parameters, path: Option<string>, cwd: string, inv: RMat -> RMat, sqrt: real -> real)
      ensures this.path == if path.Some? then path.value else cwd
      ensures nwplot == p.nwplot && numfreqs == nwplot && wplot == p.wplot
      ensures minw == p.wmin * Misc.Hartree2eV && maxw == p.wmax * Misc.Hartree2eV
      ensures scale == p.scale && swidth == p.swidth && ngridk == p.ngridk
      ensures avec == p.avec && A == CellMatrix(avec, scale)
      ensures B == ReciprocalMatrix(A, inv) && bvec == RTranspose(B)
      ensures volReal == Det(A) && volReci == Det(B)
      ensures vecql == p.vecql && qFrac == vecql && qCart == RMatVec(B, qFrac)
      ensures qabs == Length(sqrt, qCart) && qabs2 == Square(qabs)
    {
      this.path := if path.Some? then path.value else cwd;
      nwplot := p.nwplot;
      wplot := p.wplot;
      scale := p.scale;
      swidth := p.swidth;
      vecql := p.vecql;
      ngridk := p.ngridk;
      avec := p.avec;
      var a := CellMatrix(p.avec, p.scale);
      A := a;
      var b := ReciprocalMatrix(a, inv);
      B := b;
      bvec := RTranspose(b);
      volReal := Det(a);
      volReci := Det(b);
      qFrac := p.vecql;
      var qc := RMatVec(b, p.vecql);
      qCart := qc;
      var qa := Length(sqrt, qc);
      qabs := qa;
      qabs2 := Square(qa);
      minw := p.wmin * Misc.Hartree2eV;
      maxw := p.wmax * Misc.Hartree2eV;
      numfreqs := p.nwplot;
    }
  }
}
