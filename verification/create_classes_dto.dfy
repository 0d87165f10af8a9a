/**
 * `CreateClassesDto.name`: the raw value is first transformed with
 * `value?.trim()`, then validated with `@IsString()` and `@Length(2, 55)`.
 */
module ClassesDto {
  import opened Wrappers
  import opened JsValues

  const MinNameLength: nat := 2
  const MaxNameLength: nat := 55

  /**
   * The code points `String.prototype.trim` strips: the ECMAScript WhiteSpace
   * characters (tab, vertical tab, form feed, space, no-break space, byte order
   * mark and the Unicode space separators) and the LineTerminator characters.
   */
  predicate IsWhitespace(c: char): (b: bool)
    ensures c == ' ' || c == '\t' || c == '\n' || c == '\r' ==> b
    ensures '!' <= c <= '~' ==> !b
  {
    // LineTerminator: LF, CR, LINE SEPARATOR, PARAGRAPH SEPARATOR
    || c == '\n' || c == '\r' || c == '\U{2028}' || c == '\U{2029}'
    // WhiteSpace: TAB, VT, FF, SPACE, NO-BREAK SPACE, BYTE ORDER MARK
    || c == '\t' || c == '\U{000B}' || c == '\U{000C}' || c == ' ' || c == '\U{00A0}' || c == '\U{FEFF}'
    // the other Unicode space separators (general category Zs)
    || c == '\U{1680}' || ('\U{2000}' <= c <= '\U{200A}')
    || c == '\U{202F}' || c == '\U{205F}' || c == '\U{3000}'
  }

  /** `s` neither starts nor ends with whitespace. */
  predicate Trimmed(s: string)
  {
    s == [] || (!IsWhitespace(s[0]) && !IsWhitespace(s[|s| - 1]))
  }

  /** Drops the leading whitespace of `s`: the result is the suffix after it. */
  function TrimStart(s: string): (r: string)
    ensures |r| <= |s| && r == s[|s| - |r|..]
    ensures forall k :: 0 <= k < |s| - |r| ==> IsWhitespace(s[k])
    ensures r == [] || !IsWhitespace(r[0])
  {
    if s == [] then []
    else if IsWhitespace(s[0]) then
      var r := TrimStart(s[1..]);
      assert forall k :: 1 <= k < |s| - |r| ==> s[1..][k - 1] == s[k];
      r
    else s
  }

  /** Drops the trailing whitespace of `s`: the result is the prefix before it. */
  function TrimEnd(s: string): (r: string)
    ensures |r| <= |s| && r == s[..|r|]
    ensures forall k :: |r| <= k < |s| ==> IsWhitespace(s[k])
    ensures r == [] || !IsWhitespace(r[|r| - 1])
  {
    if s == [] then []
    else if IsWhitespace(s[|s| - 1]) then
      var r := TrimEnd(s[..|s| - 1]);
      assert forall k :: |r| <= k < |s| - 1 ==> s[..|s| - 1][k] == s[k];
      r
    else s
  }

  /**
   * `String.prototype.trim`: the result is the infix of `s` that starts after
   * its leading whitespace; everything cut off on either side is whitespace, and
   * the result has no whitespace at its ends.
   */
  function Trim(s: string): (r: string)
    ensures Trimmed(r)
    ensures var i := |s| - |TrimStart(s)|;
            && i + |r| <= |s| && r == s[i..i + |r|]
            && (forall k :: 0 <= k < i ==> IsWhitespace(s[k]))
            && (forall k :: i + |r| <= k < |s| ==> IsWhitespace(s[k]))
  {
    var t := TrimStart(s);
    var r := TrimEnd(t);
    assert r != [] ==> r[0] == t[0];
    var i := |s| - |t|;
    assert forall k :: i + |r| <= k < |s| ==> t[k - i] == s[k];
    r
  }

  /** A string is left unchanged by `Trim` exactly when it has no whitespace at either end. */
  lemma TrimFixpoint(s: string)
    ensures Trim(s) == s <==> Trimmed(s)
  {
  }

  /** Trimming twice is trimming once. */
  lemma TrimIdempotent(s: string)
    ensures Trim(Trim(s)) == Trim(s)
  {
  }

  /** `@Transform(({ value }) => value?.trim())`. */
  datatype TransformError = TypeError

  /**
   * The transform: `undefined` and `null` short-circuit to `undefined`, a string
   * is trimmed, and any other value has no `trim` method, so calling it throws.
   */
  function TransformName(v: JsValue): (r: Result<JsValue, TransformError>)
    ensures r.Success? <==> (v.Undefined? || v.Null? || v.Str?)
    ensures r.Success? && v.Str? ==> r.value == Str(Trim(v.s))
    ensures r.Success? && !v.Str? ==> r.value == Undefined
  {
    match v
    case Undefined => Success(Undefined)
    case Null => Success(Undefined)
    case Str(s) => Success(Str(Trim(s)))
    case _ => Failure(TypeError)
  }

  /** Why a name was refused. */
  datatype NameError =
    | TransformThrew   // the transform itself threw before validation
    | NotAString       // `@IsString()` failed (and with it `@Length`)
    | BadLength        // a string whose length is outside [2, 55]

  /** `@IsString()` and `@Length(2, 55)` on the transformed value. */
  function ValidateTransformed(v: JsValue): (r: Result<string, NameError>)
    ensures r.Success? <==> v.Str? && MinNameLength <= |v.s| <= MaxNameLength
    ensures r.Success? ==> r.value == v.s
    ensures r.Failure? ==> r.error == (if v.Str? then BadLength else NotAString)
  {
    if !v.Str? then Failure(NotAString)
    else if MinNameLength <= |v.s| <= MaxNameLength then Success(v.s)
    else Failure(BadLength)
  }

  /** The whole field pipeline: transform, then validate. */
  function ValidateName(v: JsValue): (r: Result<string, NameError>)
    ensures r.Success? <==> v.Str? && MinNameLength <= |Trim(v.s)| <= MaxNameLength
    ensures r.Success? ==> r.value == Trim(v.s) && Trimmed(r.value)
    ensures (v.Undefined? || v.Null?) ==> r == Failure(NotAString)
    ensures !(v.Undefined? || v.Null? || v.Str?) ==> r == Failure(TransformThrew)
  {
    match TransformName(v)
    case Failure(_) => Failure(TransformThrew)
    case Success(t) => ValidateTransformed(t)
  }

  /** An accepted name, submitted again, is accepted unchanged. */
  lemma RevalidateAccepted(v: JsValue)
    requires ValidateName(v).Success?
    ensures ValidateName(Str(ValidateName(v).value)) == ValidateName(v)
  {
  }
}
