/**
 * The two pure steps of the extraction pipeline (`tasks.py`) that follow the
 * model call: reading the model's answer into a field dictionary, with a
 * line-by-line fallback when the answer is not JSON, and checking the
 * extracted values against the job's field schema.
 */
module Extraction {
  import opened Wrappers
  import opened Json
  import opened Text

  /**
   * What `json.loads(response)` gives: a `JSONDecodeError`, a decoded value,
   * or another exception (a `RecursionError` on deep nesting, a `ValueError`
   * on an integer literal over the digit limit), which no handler catches.
   */
  datatype Decoded = Malformed | Decoded(value: Json) | Raised(error: string)

  const NotAnObject: string := "Response is not a JSON object"
  const NotAvailable: string := "N/A"

  /** A `':'` survives `strip()`, because it is not whitespace. */
  lemma ColonSurvivesStrip(line: string)
    requires ':' in line
    ensures ':' in Strip(line)
  {
    TrimKeepsInner(line, IsSpace);
  }

  /** `[line.strip() for line in raw if ':' in line]`. */
  function KeepColonLines(raw: seq<string>): (lines: seq<string>)
    ensures forall i :: 0 <= i < |lines| ==> ':' in lines[i]
  {
    if raw == [] then []
    else
      var rest := KeepColonLines(raw[1..]);
      if ':' in raw[0] then ColonSurvivesStrip(raw[0]); [Strip(raw[0])] + rest else rest
  }

  /**
   * Lines are kept from the end as from the front: with the function's own
   * equations this fixes the list, every raw line with a colon kept,
   * stripped, in order, and no other.
   */
  lemma {:induction false} KeepColonLinesExactly(raw: seq<string>, line: string)
    ensures KeepColonLines(raw + [line]) == KeepColonLines(raw) + (if ':' in line then [Strip(line)] else [])
  {
    if raw == [] {
      assert raw + [line] == [line];
      assert [line][1..] == [];
    } else {
      var next := raw + [line];
      assert next[0] == raw[0];
      assert next[1..] == raw[1..] + [line];
      KeepColonLinesExactly(raw[1..], line);
    }
  }

  /** The lines the fallback reads: the stripped lines of `response` that contain a `':'`. */
  function CandidateLines(response: string): (lines: seq<string>)
    ensures forall i :: 0 <= i < |lines| ==> ':' in lines[i]
  {
    KeepColonLines(Split(response, '\n'))
  }

  /** `field.lower() in line.lower()`. */
  predicate Matches(field: string, line: string)
  {
    Contains(Lower(line), Lower(field))
  }

  /** `line.split(':', 1)[1].strip().strip('"\'')`. */
  function ValueAfterColon(line: string): string
    requires ':' in line
  {
    Trim(Strip(AfterFirst(line, ':')), IsQuote)
  }

  /** The entries one line writes: every key the line matches gets the line's value. */
  function LineEntries(line: string, keys: set<string>): (w: Object)
    requires ':' in line
    ensures forall f :: f in w <==> f in keys && Matches(f, line)
    ensures forall f :: f in w ==> w[f] == JStr(ValueAfterColon(line))
  {
    map f | f in keys && Matches(f, line) :: JStr(ValueAfterColon(line))
  }

  /** A dictionary after the writes `ws`, applied in order. */
  function Overlay(ws: seq<Object>): Object
  {
    if ws == [] then map[] else Overlay(ws[..|ws| - 1]) + ws[|ws| - 1]
  }

  /** A key is present after the writes iff some write sets it. */
  lemma {:induction false} OverlayKeys(ws: seq<Object>)
    ensures forall f :: f in Overlay(ws) <==> exists i :: 0 <= i < |ws| && f in ws[i]
  {
    if ws != [] {
      var p := ws[..|ws| - 1];
      OverlayKeys(p);
      forall f ensures f in Overlay(ws) <==> exists i :: 0 <= i < |ws| && f in ws[i] {
        if f in Overlay(p) {
          var i :| 0 <= i < |p| && f in p[i];
          assert ws[i] == p[i];
        }
        if exists i :: 0 <= i < |ws| && f in ws[i] {
          var i :| 0 <= i < |ws| && f in ws[i];
          if i < |p| {
            assert p[i] == ws[i];
          }
        }
      }
    }
  }

  /** A present key holds the value of the last write that sets it. */
  lemma {:induction false} OverlayLastWins(ws: seq<Object>, f: string)
    requires f in Overlay(ws)
    ensures exists i :: 0 <= i < |ws| && f in ws[i] && Overlay(ws)[f] == ws[i][f] &&
              forall j :: i < j < |ws| ==> f !in ws[j]
  {
    var n := |ws| - 1;
    var p := ws[..n];
    if f in ws[n] {
      assert Overlay(ws)[f] == ws[n][f];
    } else {
      OverlayLastWins(p, f);
      var i :| 0 <= i < |p| && f in p[i] && Overlay(p)[f] == p[i][f] && forall j :: i < j < |p| ==> f !in p[j];
      assert ws[i] == p[i];
      forall j | i < j < |ws| ensures f !in ws[j] {
        if j < n {
          assert ws[j] == p[j];
        }
      }
    }
  }

  /** The writes of the candidate lines, one dictionary per line. */
  function Writes(lines: seq<string>, keys: set<string>): (ws: seq<Object>)
    requires forall i :: 0 <= i < |lines| ==> ':' in lines[i]
    ensures |ws| == |lines| && forall i :: 0 <= i < |lines| ==> ws[i] == LineEntries(lines[i], keys)
  {
    seq(|lines|, i requires 0 <= i < |lines| => LineEntries(lines[i], keys))
  }

  /** The `result` dictionary after the nested loops have read `lines` in order. */
  function FallbackFrom(lines: seq<string>, keys: set<string>): Object
    requires forall i :: 0 <= i < |lines| ==> ':' in lines[i]
  {
    Overlay(Writes(lines, keys))
  }

  /** `result or {k: "N/A" for k in fields.keys()}`. */
  function OrNotAvailable(result: Object, keys: set<string>): Object
  {
    if result == map[] then map k | k in keys :: JStr(NotAvailable) else result
  }

  /** The whole fallback path of `parse_gemini_response`. */
  function Fallback(response: string, keys: set<string>): (r: Object)
    ensures keys != {} ==> r != map[]
  {
    var found := FallbackFrom(CandidateLines(response), keys);
    assert found == map[] ==> forall k :: k in keys ==> k in OrNotAvailable(found, keys);
    OrNotAvailable(found, keys)
  }

  /** The fallback writes a key exactly when the key is a field that some candidate line matches. */
  lemma FallbackFromKeys(lines: seq<string>, keys: set<string>)
    requires forall i :: 0 <= i < |lines| ==> ':' in lines[i]
    ensures forall f :: f in FallbackFrom(lines, keys) <==>
              f in keys && exists i :: 0 <= i < |lines| && Matches(f, lines[i])
  {
    var ws := Writes(lines, keys);
    OverlayKeys(ws);
    forall f ensures f in Overlay(ws) <==> f in keys && exists i :: 0 <= i < |lines| && Matches(f, lines[i]) {
      if f in keys && exists i :: 0 <= i < |lines| && Matches(f, lines[i]) {
        var i :| 0 <= i < |lines| && Matches(f, lines[i]);
        assert f in ws[i];
      }
    }
  }

  /** A written key holds the value of the last candidate line that matches it. */
  lemma FallbackFromLastWins(lines: seq<string>, keys: set<string>, f: string)
    requires forall i :: 0 <= i < |lines| ==> ':' in lines[i]
    requires f in FallbackFrom(lines, keys)
    ensures exists i :: 0 <= i < |lines| && Matches(f, lines[i]) &&
              FallbackFrom(lines, keys)[f] == JStr(ValueAfterColon(lines[i])) &&
              forall j :: i < j < |lines| ==> !Matches(f, lines[j])
  {
    var ws := Writes(lines, keys);
    OverlayLastWins(ws, f);
    var i :| 0 <= i < |ws| && f in ws[i] && Overlay(ws)[f] == ws[i][f] && forall j :: i < j < |ws| ==> f !in ws[j];
    assert f in keys && Matches(f, lines[i]);
    forall j | i < j < |lines| ensures !Matches(f, lines[j]) {
      assert f !in ws[j];
    }
  }

  /** Every key of the fallback result is a key of `fields`. */
  lemma FallbackKeysAreFields(response: string, keys: set<string>)
    ensures Fallback(response, keys).Keys <= keys
  {
    FallbackFromKeys(CandidateLines(response), keys);
  }

  /** When no field matches any candidate line, every field maps to `"N/A"`. */
  lemma FallbackNothingFound(response: string, keys: set<string>)
    requires forall f, i :: f in keys && 0 <= i < |CandidateLines(response)| ==> !Matches(f, CandidateLines(response)[i])
    ensures Fallback(response, keys) == map k | k in keys :: JStr(NotAvailable)
  {
    FallbackFromKeys(CandidateLines(response), keys);
    assert FallbackFrom(CandidateLines(response), keys) == map[];
  }

  /** When some field matches some candidate line, the fallback is exactly what the lines wrote. */
  lemma FallbackSomethingFound(response: string, keys: set<string>, f: string, i: int)
    requires f in keys && 0 <= i < |CandidateLines(response)| && Matches(f, CandidateLines(response)[i])
    ensures Fallback(response, keys) == FallbackFrom(CandidateLines(response), keys)
    ensures f in Fallback(response, keys)
  {
    var lines := CandidateLines(response);
    FallbackFromKeys(lines, keys);
    var found := FallbackFrom(lines, keys);
    assert f in found;
    assert found != map[];
    assert Fallback(response, keys) == OrNotAvailable(found, keys);
  }

  /**
   * `parse_gemini_response`. `decoded` is what `json.loads(response)`
   * returned. A decoded object is returned as it is; a decoded non-object
   * raises `ValueError`, which is not caught; a decoding error runs the
   * line-by-line fallback over the keys of `fields`.
   */
  method ParseGeminiResponse(response: string, decoded: Decoded, fields: Object) returns (r: Result<Object, string>)
    ensures decoded.Decoded? && decoded.value.JObj? ==> r == Success(decoded.value.members)
    ensures decoded.Decoded? && !decoded.value.JObj? ==> r == Failure(NotAnObject)
    ensures decoded.Malformed? ==> r == Success(Fallback(response, fields.Keys))
    ensures decoded.Raised? ==> r == Failure(decoded.error)
  {
    if decoded.Raised? {
      return Failure(decoded.error);
    }
    if decoded.Decoded? {
      if !decoded.value.JObj? {
        return Failure(NotAnObject);
      }
      return Success(decoded.value.members);
    }
    var result: Object := map[];
    var lines := CandidateLines(response);
    ghost var ws := Writes(lines, fields.Keys);
    for i := 0 to |lines|
      invariant result == Overlay(ws[..i])
    {
      assert ws[..i + 1][..i] == ws[..i];
      result := WriteLine(result, lines[i], fields.Keys);
    }
    assert ws[..|lines|] == ws;
    r := Success(OrNotAvailable(result, fields.Keys));
  }

  /** The inner loop of the fallback: every field the line matches is set to the line's value. */
  method WriteLine(before: Object, line: string, keys: set<string>) returns (result: Object)
    requires ':' in line
    ensures result == before + LineEntries(line, keys)
  {
    result := before;
    ghost var written := LineEntries(line, keys);
    ghost var v := JStr(ValueAfterColon(line));
    var remaining := keys;
    while remaining != {}
      invariant remaining <= keys
      invariant forall f :: f in result <==> f in before || (f in written && f !in remaining)
      invariant forall f :: f in result ==> result[f] == if f in written && f !in remaining then v else before[f]
      decreases remaining
    {
      var field :| field in remaining;
      if Contains(Lower(line), Lower(field)) {
        var value := ValueAfterColon(line);
        assert field in written && JStr(value) == v;
        result := result[field := JStr(value)];
      } else {
        assert field !in written;
      }
      remaining := remaining - {field};
    }
    assert result == before + written;
  }

  const MissingValue: string := "Missing or empty value"
  const InvalidInteger: string := "Must be a valid integer"
  const InvalidDate: string := "Invalid date format"
  /** The `AttributeError` a schema entry that is not a dictionary raises at `spec.get`. */
  const SpecNotADict: string := "'spec' has no attribute 'get'"

  /** `d.get(key)`, with a missing key read as `None`. */
  function Get(d: Object, key: string): (v: Json)
    ensures key !in d ==> v == JNull
  {
    if key in d then d[key] else JNull
  }

  /** `value is None or str(value).strip() == ""`: only `None` and whitespace-only strings print blank. */
  predicate IsBlank(value: Json)
  {
    value.JNull? || (value.JStr? && Strip(value.s) == [])
  }

  /** Decimal digits with single underscores between them, as `int()` accepts. */
  predicate IsDigitGroups(s: string)
  {
    s != [] && IsDigit(s[0]) && IsDigit(s[|s| - 1]) &&
    (forall i :: 0 <= i < |s| ==> IsDigit(s[i]) || s[i] == '_') &&
    (forall i :: 0 <= i < |s| - 1 ==> s[i] == '_' ==> s[i + 1] != '_')
  }

  /** CPython's default bound on the digits of a decimal string `int()` converts. */
  const MaxStrDigits: nat := 4300

  /** The number of decimal digits in `s` (underscores and signs do not count). */
  function DigitCount(s: string): (n: nat)
    ensures n <= |s|
  {
    if s == [] then 0 else (if IsDigit(s[0]) then 1 else 0) + DigitCount(s[1..])
  }

  /**
   * A base-10 literal `int(str)` accepts once surrounding whitespace is
   * stripped: an optional sign, then digit groups, with at most
   * `MaxStrDigits` digits.
   */
  predicate IsIntLiteral(t: string)
  {
    t != [] && (if t[0] == '+' || t[0] == '-' then IsDigitGroups(t[1..]) else IsDigitGroups(t)) &&
    DigitCount(t) <= MaxStrDigits
  }

  /** `"1" * n`. */
  function Ones(n: nat): (s: string)
    ensures |s| == n && forall i :: 0 <= i < n ==> s[i] == '1'
  {
    if n == 0 then [] else "1" + Ones(n - 1)
  }

  lemma {:induction false} OnesDigitCount(n: nat)
    ensures DigitCount(Ones(n)) == n
  {
    if n > 0 {
      OnesDigitCount(n - 1);
      assert Ones(n)[1..] == Ones(n - 1);
    }
  }

  /** `int("1" * n)` succeeds exactly up to the digit limit. */
  lemma DigitLimit(n: nat)
    requires n >= 1
    ensures IsIntLiteral(Ones(n)) <==> n <= MaxStrDigits
  {
    OnesDigitCount(n);
  }

  /** `int(value)` returns normally: booleans and numbers convert, strings must be integer literals, the rest raises. */
  predicate IntParses(value: Json)
    ensures IntParses(value) ==> value.JBool? || value.JNum? || value.JStr?
  {
    match value
    case JBool(_) => true
    case JNum(_) => true
    case JStr(s) => IsIntLiteral(Strip(s))
    case _ => false
  }

  /**
   * `re.match(r"\d{4}-\d{2}-\d{2}", str(value))`: the printed value starts
   * with `dddd-dd-dd`. Only a string can print that way: a number prints a
   * minus sign only in front, and `True`, lists and dictionaries start with
   * a letter or a bracket.
   */
  predicate DateMatches(value: Json)
    ensures DateMatches(value) ==> PyTruthy(value) && !IsBlank(value)
  {
    value.JStr? && |value.s| >= 10 &&
    (StripEmptyIff(value.s); IsDigit(value.s[0]) && IsDigit(value.s[1]) && IsDigit(value.s[2]) && IsDigit(value.s[3]) &&
    value.s[4] == '-' && IsDigit(value.s[5]) && IsDigit(value.s[6]) &&
    value.s[7] == '-' && IsDigit(value.s[8]) && IsDigit(value.s[9]))
  }

  /**
   * The message `validate_fields` leaves for one field: the three checks
   * run in order and each later one overwrites, so the last failing check
   * decides.
   */
  function FieldError(value: Json, spec: Object): Option<string>
  {
    var truthy := PyTruthy(value);
    var typeName := Get(spec, "type");
    if truthy && typeName == JStr("date") && !DateMatches(value) then Some(InvalidDate)
    else if truthy && typeName == JStr("int") && !IntParses(value) then Some(InvalidInteger)
    else if PyTruthy(Get(spec, "required")) && IsBlank(value) then Some(MissingValue)
    else None
  }

  /** Every schema entry is a dictionary, so `spec.get` never raises. */
  predicate SpecsAreObjects(expected: Object)
  {
    forall f :: f in expected ==> expected[f].JObj?
  }

  /** The `errors` dictionary `validate_fields` returns. */
  function Errors(extracted: Object, expected: Object): (errors: map<string, string>)
    requires SpecsAreObjects(expected)
    ensures errors.Keys <= expected.Keys
    ensures forall f :: f in expected ==>
              (f in errors <==> FieldError(Get(extracted, f), expected[f].members).Some?)
    ensures forall f :: f in errors ==> Some(errors[f]) == FieldError(Get(extracted, f), expected[f].members)
  {
    map f | f in expected.Keys && FieldError(Get(extracted, f), expected[f].members).Some? ::
      FieldError(Get(extracted, f), expected[f].members).value
  }

  /**
   * `validate_fields`: one pass over the schema. A schema entry that is not
   * a dictionary makes `spec.get` raise; otherwise the result is `Errors`.
   */
  method ValidateFields(extracted: Object, expected: Object) returns (r: Result<map<string, string>, string>)
    ensures r.Failure? <==> !SpecsAreObjects(expected)
    ensures r.Failure? ==> r.error == SpecNotADict
    ensures r.Success? ==> SpecsAreObjects(expected) && r.value == Errors(extracted, expected)
  {
    var errors: map<string, string> := map[];
    var remaining := expected.Keys;
    while remaining != {}
      invariant remaining <= expected.Keys
      invariant forall f :: f in expected.Keys - remaining ==> expected[f].JObj?
      invariant errors.Keys <= expected.Keys - remaining
      invariant forall f :: f in expected.Keys - remaining ==>
                  (f in errors <==> FieldError(Get(extracted, f), expected[f].members).Some?)
      invariant forall f :: f in errors ==> Some(errors[f]) == FieldError(Get(extracted, f), expected[f].members)
      decreases remaining
    {
      var field :| field in remaining;
      var spec := expected[field];
      if !spec.JObj? {
        return Failure(SpecNotADict);
      }
      var value := Get(extracted, field);
      if PyTruthy(Get(spec.members, "required")) && IsBlank(value) {
        errors := errors[field := MissingValue];
      }
      if PyTruthy(value) && Get(spec.members, "type") == JStr("int") && !IntParses(value) {
        errors := errors[field := InvalidInteger];
      }
      if PyTruthy(value) && Get(spec.members, "type") == JStr("date") && !DateMatches(value) {
        errors := errors[field := InvalidDate];
      }
      remaining := remaining - {field};
    }
    r := Success(errors);
  }

  /** A field gets one of the three messages, and a type message only for a truthy value. */
  lemma FieldErrorMessages(value: Json, spec: Object)
    ensures FieldError(value, spec).Some? ==>
              FieldError(value, spec).value in {InvalidDate, InvalidInteger, MissingValue}
    ensures FieldError(value, spec) in {Some(InvalidDate), Some(InvalidInteger)} ==> PyTruthy(value)
  {
  }

  /** A field that is not required and has a falsy value never gets a message. */
  lemma OptionalFalsyHasNoError(value: Json, spec: Object)
    requires !PyTruthy(Get(spec, "required")) && !PyTruthy(value)
    ensures FieldError(value, spec) == None
  {
  }

  /** A required field that is missing or blank gets `"Missing or empty value"` unless a type check fails later. */
  lemma RequiredBlankIsMissing(value: Json, spec: Object)
    requires PyTruthy(Get(spec, "required")) && IsBlank(value)
    ensures FieldError(value, spec) == Some(MissingValue) <==>
              !(PyTruthy(value) && Get(spec, "type") == JStr("int") && !IntParses(value)) &&
              !(PyTruthy(value) && Get(spec, "type") == JStr("date") && !DateMatches(value))
  {
  }

  /** A whitespace-only string is blank but truthy, so an `int` field reports the integer check, not the missing value. */
  lemma BlankStringFailsIntCheck(spec: Object)
    requires PyTruthy(Get(spec, "required")) && Get(spec, "type") == JStr("int")
    ensures FieldError(JStr(" "), spec) == Some(InvalidInteger)
  {
    assert Strip(" ") == [];
  }

  /** The integer message appears exactly when a truthy `int` value fails to parse. */
  lemma IntegerErrorIff(value: Json, spec: Object)
    ensures FieldError(value, spec) == Some(InvalidInteger) <==>
              PyTruthy(value) && Get(spec, "type") == JStr("int") && !IntParses(value)
  {
  }

  /** The date message appears exactly when a truthy `date` value does not start like `dddd-dd-dd`. */
  lemma DateErrorIff(value: Json, spec: Object)
    ensures FieldError(value, spec) == Some(InvalidDate) <==>
              PyTruthy(value) && Get(spec, "type") == JStr("date") && !DateMatches(value)
  {
  }

  /** Decimal literals are accepted with a sign and single underscores between digits. */
  lemma IntLiteralExamples()
    ensures IsIntLiteral("-1_000") && IsIntLiteral("+7") && IsIntLiteral("007")
  {
    assert "-1_000"[1..] == "1_000";
    assert "+7"[1..] == "7";
    assert DigitCount("-1_000") == 4;
    assert DigitCount("+7") == 1;
    assert DigitCount("007") == 3;
  }

  /** A doubled, leading or trailing underscore, a bare sign and a decimal point are refused. */
  lemma IntLiteralCounterexamples()
    ensures !IsIntLiteral("1__0") && !IsIntLiteral("_1") && !IsIntLiteral("1_") && !IsIntLiteral("+") && !IsIntLiteral("1.5")
  {
    assert "1__0"[1] == '_' && "1__0"[2] == '_';
    assert "1.5"[1] == '.';
  }
}
