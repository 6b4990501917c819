/** Reading configuration values from the process environment (src/environment.rs).
    The environment is a map from variable names to values. */
module Environment {
  import opened Wrappers
  import opened Errors
  import opened Strings

  /** The eight integer types the getters return. */
  datatype IntKind = I8 | I16 | I32 | I64 | U8 | U16 | U32 | U64 {
    predicate Signed() {
      I8? || I16? || I32? || I64?
    }

    function Min(): int {
      match this
      case I8 => -0x80
      case I16 => -0x8000
      case I32 => -0x8000_0000
      case I64 => -0x8000_0000_0000_0000
      case _ => 0
    }

    function Max(): int {
      match this
      case I8 => 0x7F
      case I16 => 0x7FFF
      case I32 => 0x7FFF_FFFF
      case I64 => 0x7FFF_FFFF_FFFF_FFFF
      case U8 => 0xFF
      case U16 => 0xFFFF
      case U32 => 0xFFFF_FFFF
      case U64 => 0xFFFF_FFFF_FFFF_FFFF
    }
  }

  /** The kinds of `ParseIntError` that decimal parsing can report. */
  datatype IntErrorKind = Empty | InvalidDigit | PosOverflow | NegOverflow {
    /** The `Display` text of the error. */
    function Message(): string {
      match this
      case Empty => "cannot parse integer from empty string"
      case InvalidDigit => "invalid digit found in string"
      case PosOverflow => "number too large to fit in target type"
      case NegOverflow => "number too small to fit in target type"
    }
  }

  /** The digits of a decimal literal: everything after a '+' sign, or after a '-' sign
      when the target type is signed; otherwise the whole string. */
  function DigitsOf(s: string, kind: IntKind): string
    requires s != []
  {
    if s[0] == '+' || (s[0] == '-' && kind.Signed()) then s[1..] else s
  }

  /** `s` is an optional sign followed by at least one decimal digit. */
  predicate IsDecimal(s: string, kind: IntKind) {
    s != [] && DigitsOf(s, kind) != [] && AllDigits(DigitsOf(s, kind))
  }

  function WithSign(positive: bool, magnitude: nat): int {
    if positive then magnitude else -(magnitude as int)
  }

  /** The integer a decimal literal denotes. */
  function DecimalValue(s: string, kind: IntKind): int
    requires IsDecimal(s, kind)
  {
    WithSign(!(s[0] == '-' && kind.Signed()), DigitsValue(DigitsOf(s, kind)))
  }

  predicate InRange(n: int, kind: IntKind) {
    kind.Min() <= n <= kind.Max()
  }

  /** The digit loop of `from_str_radix`: digits are read left to right into `acc`,
      added for a positive literal and subtracted for a negative one; a character that is
      not a digit stops it with InvalidDigit, a step that leaves the type's range with an
      overflow. */
  function Accumulate(digits: string, acc: int, positive: bool, kind: IntKind): (r: Result<int, IntErrorKind>)
    requires InRange(acc, kind)
    ensures r.Ok? ==> InRange(r.value, kind)
    ensures r != Err(Empty)
    decreases |digits|
  {
    if digits == [] then Ok(acc)
    else if !IsDigit(digits[0]) then Err(InvalidDigit)
    else
      var next := Step(acc, digits[0], positive);
      if next > kind.Max() then Err(PosOverflow)
      else if next < kind.Min() then Err(NegOverflow)
      else Accumulate(digits[1..], next, positive, kind)
  }

  /** The accumulator after one more digit. */
  function Step(acc: int, c: char, positive: bool): int
    requires IsDigit(c)
  {
    if positive then 10 * acc + DigitValue(c) else 10 * acc - DigitValue(c)
  }

  lemma AccumulateUnfold(digits: string, acc: int, positive: bool, kind: IntKind)
    requires InRange(acc, kind) && digits != [] && IsDigit(digits[0])
    ensures !InRange(Step(acc, digits[0], positive), kind) ==> Accumulate(digits, acc, positive, kind).Err?
    ensures InRange(Step(acc, digits[0], positive), kind) ==>
      Accumulate(digits, acc, positive, kind) == Accumulate(digits[1..], Step(acc, digits[0], positive), positive, kind)
  {
  }

  /** `str::parse` for the integer type `kind`, in radix 10. */
  function ParseInteger(s: string, kind: IntKind): (r: Result<int, IntErrorKind>)
    ensures r.Ok? ==> InRange(r.value, kind)
    ensures r == Err(Empty) <==> s == []
  {
    if s == [] then Err(Empty)
    else if |s| == 1 && (s[0] == '+' || s[0] == '-') then Err(InvalidDigit)
    else if s[0] == '+' then Accumulate(s[1..], 0, true, kind)
    else if s[0] == '-' && kind.Signed() then Accumulate(s[1..], 0, false, kind)
    else Accumulate(s, 0, true, kind)
  }

  lemma AllDigitsConcat(a: string, b: string)
    ensures AllDigits(a + b) <==> AllDigits(a) && AllDigits(b)
  {
    if AllDigits(a) && AllDigits(b) {
      forall i | 0 <= i < |a + b| ensures IsDigit((a + b)[i]) {
        if i >= |a| { assert (a + b)[i] == b[i - |a|]; }
      }
    }
    if AllDigits(a + b) {
      forall i | 0 <= i < |a| ensures IsDigit(a[i]) {
        assert a[i] == (a + b)[i];
      }
      forall i | 0 <= i < |b| ensures IsDigit(b[i]) {
        assert b[i] == (a + b)[|a| + i];
      }
    }
  }

  lemma DigitsValueSnoc(ds: string, c: char)
    requires AllDigits(ds) && IsDigit(c)
    ensures AllDigits(ds + [c])
    ensures DigitsValue(ds + [c]) == 10 * DigitsValue(ds) + DigitValue(c)
  {
    AllDigitsConcat(ds, [c]);
    assert (ds + [c])[..|ds + [c]| - 1] == ds;
  }

  /** Appending digits never decreases the value of a digit string. */
  lemma {:induction false} DigitsValueGrows(ds: string, more: string)
    requires AllDigits(ds) && AllDigits(more)
    ensures AllDigits(ds + more)
    ensures DigitsValue(ds + more) >= DigitsValue(ds)
    decreases |more|
  {
    AllDigitsConcat(ds, more);
    if more == [] {
      assert ds + more == ds;
    } else {
      var init, last := more[..|more| - 1], more[|more| - 1];
      assert init + [last] == more;
      AllDigitsConcat(init, [last]);
      DigitsValueGrows(ds, init);
      var prefix := ds + init;
      DigitsValueSnoc(prefix, last);
      assert prefix + [last] == ds + more;
      assert DigitsValue(prefix + [last]) >= DigitsValue(prefix);
    }
  }

  /** One step of the digit loop: the accumulator after digit `c` is the signed value of
      the prefix extended by `c`. */
  lemma AccumulateStep(done: string, c: char, positive: bool)
    requires AllDigits(done) && IsDigit(c)
    ensures AllDigits(done + [c])
    ensures WithSign(positive, DigitsValue(done + [c])) == Step(WithSign(positive, DigitsValue(done)), c, positive)
  {
    DigitsValueSnoc(done, c);
  }

  /** Once the prefix read so far leaves the type's range, so does every longer literal. */
  lemma OutOfRangeStays(done: string, more: string, positive: bool, kind: IntKind)
    requires AllDigits(done) && AllDigits(more)
    requires !InRange(WithSign(positive, DigitsValue(done)), kind)
    ensures AllDigits(done + more)
    ensures !InRange(WithSign(positive, DigitsValue(done + more)), kind)
  {
    DigitsValueGrows(done, more);
  }

  /** Reading `digits` after a prefix `done` whose value is already in the accumulator
      succeeds exactly when `digits` are all digits and the whole literal stays within
      the type, and then yields the value of the whole. */
  lemma {:induction false} AccumulateValue(done: string, digits: string, positive: bool, kind: IntKind)
    requires AllDigits(done)
    requires InRange(WithSign(positive, DigitsValue(done)), kind)
    ensures AllDigits(digits) <==> AllDigits(done + digits)
    ensures var r := Accumulate(digits, WithSign(positive, DigitsValue(done)), positive, kind);
      && (r.Ok? <==> AllDigits(done + digits) && InRange(WithSign(positive, DigitsValue(done + digits)), kind))
      && (r.Ok? ==> AllDigits(done + digits) && r.value == WithSign(positive, DigitsValue(done + digits)))
    decreases |digits|
  {
    AllDigitsConcat(done, digits);
    if digits == [] {
      assert done + digits == done;
    } else if IsDigit(digits[0]) {
      var c, rest := digits[0], digits[1..];
      AccumulateStep(done, c, positive);
      assert (done + [c]) + rest == done + digits;
      assert digits == [c] + rest;
      AllDigitsConcat([c], rest);
      AccumulateUnfold(digits, WithSign(positive, DigitsValue(done)), positive, kind);
      if !InRange(WithSign(positive, DigitsValue(done + [c])), kind) {
        if AllDigits(rest) {
          OutOfRangeStays(done + [c], rest, positive, kind);
        }
      } else {
        AccumulateValue(done + [c], rest, positive, kind);
      }
    } else {
      assert !AllDigits(digits);
    }
  }

  /** `parse` accepts exactly the decimal literals whose value fits the type, and returns
      that value. */
  lemma ParseIntegerCorrect(s: string, kind: IntKind)
    ensures ParseInteger(s, kind).Ok? <==> IsDecimal(s, kind) && InRange(DecimalValue(s, kind), kind)
    ensures ParseInteger(s, kind).Ok? ==> ParseInteger(s, kind).value == DecimalValue(s, kind)
  {
    if s != [] && !(|s| == 1 && (s[0] == '+' || s[0] == '-')) {
      var positive := !(s[0] == '-' && kind.Signed());
      var digits := DigitsOf(s, kind);
      assert WithSign(positive, DigitsValue([])) == 0;
      assert ParseInteger(s, kind) == Accumulate(digits, 0, positive, kind);
      assert [] + digits == digits;
      AccumulateValue([], digits, positive, kind);
      assert digits == [] ==> s == [] || |s| == 1;
    }
  }

  /** Parsing the decimal rendering of an in-range integer gives the integer back. */
  lemma ParseIntegerRoundTrip(n: int, kind: IntKind)
    requires InRange(n, kind)
    ensures ParseInteger(IntToDecimal(n), kind) == Ok(n)
  {
    var s := IntToDecimal(n);
    ParseIntegerCorrect(s, kind);
    if n < 0 {
      assert DigitsOf(s, kind) == NatToDecimal(-n);
    } else {
      assert DigitsOf(s, kind) == NatToDecimal(n);
    }
  }

  /** The message of a lookup of an absent variable (`VarError::NotPresent`). */
  function MissingVariableMessage(key: string): string {
    "Failed retrieving environment variable. Check " + key + " in .env - Error environment variable not found"
  }

  /** The message for a variable that is present but blank. */
  function BlankVariableMessage(key: string): string {
    "Invalid environment content. Must not be empty. Check " + key
  }

  /** `get_string_from_env`: the raw value, or an error that names the variable. */
  function GetStringFromEnv(env: map<string, string>, key: string): (r: Result<string, Error>)
    ensures r.Ok? <==> key in env
    ensures r.Ok? ==> r.value == env[key]
    ensures r.Err? ==> r.error == NewFromMessage(MissingVariableMessage(key))
  {
    if key in env then Ok(env[key]) else Err(NewFromMessage(MissingVariableMessage(key)))
  }

  /** `get_non_empty_string_from_env`: the trimmed value, which must not be empty. */
  function GetNonEmptyStringFromEnv(env: map<string, string>, key: string): (r: Result<string, Error>)
    ensures r.Ok? <==> key in env && !Blank(env[key])
    ensures r.Ok? ==> r.value == Trim(env[key])
    ensures r.Ok? ==> r.value != [] && !IsWhitespace(r.value[0]) && !IsWhitespace(r.value[|r.value| - 1])
    ensures key !in env ==> r == Err(NewFromMessage(MissingVariableMessage(key)))
    ensures key in env && Blank(env[key]) ==> r == Err(NewFromMessage(BlankVariableMessage(key)))
  {
    match GetStringFromEnv(env, key)
    case Err(e) => Err(e)
    case Ok(content) =>
      TrimSpec(content);
      var trimmed := Trim(content);
      if trimmed == [] then Err(NewFromMessage(BlankVariableMessage(key))) else Ok(trimmed)
  }

  /** The shared body of the `get_{i,u}{8,16,32,64}_from_env` getters: the trimmed,
      non-empty value parsed as an integer of type `kind`. */
  function GetIntegerFromEnv(env: map<string, string>, key: string, kind: IntKind): (r: Result<int, Error>)
    ensures r.Ok? ==> InRange(r.value, kind)
    ensures !(key in env && !Blank(env[key])) ==> r.Err?
    ensures GetNonEmptyStringFromEnv(env, key).Err? ==> r == Err(GetNonEmptyStringFromEnv(env, key).error)
    ensures GetNonEmptyStringFromEnv(env, key).Ok? ==>
      var parsed := ParseInteger(Trim(env[key]), kind);
      && (parsed.Ok? ==> r == Ok(parsed.value))
      && (parsed.Err? ==> r == Err(NewFromMessage(parsed.error.Message())))
  {
    match GetNonEmptyStringFromEnv(env, key)
    case Err(e) => Err(e)
    case Ok(content) =>
      match ParseInteger(content, kind)
      case Ok(n) => Ok(n)
      case Err(kindOfError) => Err(NewFromMessage(kindOfError.Message()))
  }

  /** A variable holding the decimal rendering of an in-range integer, padded with any
      whitespace, reads back as that integer. */
  lemma GetIntegerFromEnvRoundTrip(env: map<string, string>, key: string, kind: IntKind, n: int, pre: string, post: string)
    requires InRange(n, kind)
    requires Blank(pre) && Blank(post)
    requires key in env && env[key] == pre + IntToDecimal(n) + post
    ensures GetIntegerFromEnv(env, key, kind) == Ok(n)
  {
    var s := IntToDecimal(n);
    assert !IsWhitespace(s[0]) && !IsWhitespace(s[|s| - 1]);
    TrimRemovesPadding(pre, s, post);
    TrimSpec(env[key]);
    ParseIntegerRoundTrip(n, kind);
  }

  /** A variable whose trimmed content is not a decimal literal of the type's range yields
      the parse error, never a value. */
  lemma GetIntegerFromEnvRejects(env: map<string, string>, key: string, kind: IntKind)
    requires key in env && !Blank(env[key])
    requires !IsDecimal(Trim(env[key]), kind) || !InRange(DecimalValue(Trim(env[key]), kind), kind)
    ensures ParseInteger(Trim(env[key]), kind).Err?
    ensures GetIntegerFromEnv(env, key, kind) == Err(NewFromMessage(ParseInteger(Trim(env[key]), kind).error.Message()))
  {
    ParseIntegerCorrect(Trim(env[key]), kind);
  }

  function GetI8FromEnv(env: map<string, string>, key: string): (r: Result<int, Error>)
    ensures r.Ok? ==> InRange(r.value, I8)
  {
    GetIntegerFromEnv(env, key, I8)
  }

  function GetI16FromEnv(env: map<string, string>, key: string): (r: Result<int, Error>)
    ensures r.Ok? ==> InRange(r.value, I16)
  {
    GetIntegerFromEnv(env, key, I16)
  }

  function GetI32FromEnv(env: map<string, string>, key: string): (r: Result<int, Error>)
    ensures r.Ok? ==> InRange(r.value, I32)
  {
    GetIntegerFromEnv(env, key, I32)
  }

  function GetI64FromEnv(env: map<string, string>, key: string): (r: Result<int, Error>)
    ensures r.Ok? ==> InRange(r.value, I64)
  {
    GetIntegerFromEnv(env, key, I64)
  }

  function GetU8FromEnv(env: map<string, string>, key: string): (r: Result<int, Error>)
    ensures r.Ok? ==> InRange(r.value, U8)
  {
    GetIntegerFromEnv(env, key, U8)
  }

  function GetU16FromEnv(env: map<string, string>, key: string): (r: Result<int, Error>)
    ensures r.Ok? ==> InRange(r.value, U16)
  {
    GetIntegerFromEnv(env, key, U16)
  }

  function GetU32FromEnv(env: map<string, string>, key: string): (r: Result<int, Error>)
    ensures r.Ok? ==> InRange(r.value, U32)
  {
    GetIntegerFromEnv(env, key, U32)
  }

  function GetU64FromEnv(env: map<string, string>, key: string): (r: Result<int, Error>)
    ensures r.Ok? ==> InRange(r.value, U64)
  {
    GetIntegerFromEnv(env, key, U64)
  }
}
