/** The string normalisers of the server (`normStr`, `safeEmail`) and the
    `(v || "").trim()` idiom the handlers use on body fields. */
module ServerHelpers {
  import opened JsValues

  /** `normStr(v)`: trims strings and passes every other value through. */
  function NormStr(v: JsVal): JsVal
  {
    if v.Str? then Str(Trim(v.s)) else v
  }

  /** `safeEmail(v)`: `(normStr(v) || "").toString().trim().toLowerCase()`.
      The result is always trimmed and lower-case; for a string it is the
      string trimmed and lower-cased; a falsy value gives "". */
  function SafeEmail(v: JsVal): (r: string)
    ensures IsTrimmed(r) && IsLowerCase(r)
    ensures v.Str? ==> r == ToLower(Trim(v.s))
    ensures !Truthy(NormStr(v)) ==> r == ""
  {
    var n := NormStr(v);
    var text := if Truthy(n) then ToJsString(n) else "";
    var r := ToLower(Trim(text));
    ToLowerKeepsTrimmed(Trim(text));
    ToLowerIdempotent(Trim(text));
    TrimIdempotent(if v.Str? then v.s else "");
    r
  }

  /** Normalising an already normalised address changes nothing, so the
      address stored at registration is found again by the login lookup. */
  lemma SafeEmailIdempotent(v: JsVal)
    ensures SafeEmail(Str(SafeEmail(v))) == SafeEmail(v)
  {
    var e := SafeEmail(v);
    TrimOfTrimmed(e);
  }

  /** An address that is already trimmed and lower-case is its own normal form. */
  lemma SafeEmailOfNormal(s: string)
    requires IsTrimmed(s) && IsLowerCase(s)
    ensures SafeEmail(Str(s)) == s
  {
    TrimOfTrimmed(s);
  }

  /** `(v || "").trim()`: None stands for the TypeError thrown when `v` is
      truthy but not a string (it has no `trim` method). */
  function TrimmedOrEmpty(v: JsVal): (r: Option<string>)
    ensures r.None? <==> Truthy(v) && !v.Str?
    ensures r.Some? ==> IsTrimmed(r.value)
    ensures v.Str? && Truthy(v) ==> r == Some(Trim(v.s))
    ensures !Truthy(v) ==> r == Some("")
  {
    if !Truthy(v) then Some("")
    else if v.Str? then Some(Trim(v.s))
    else None
  }
}
