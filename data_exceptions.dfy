/** The data-provider error taxonomy: one base error carrying the provider name,
    a message and an optional underlying error, and seven kinds that add no
    fields of their own. */
module DataExceptions {
  import opened Common

  datatype ErrorKind =
    | BaseError
    | NetworkError
    | AuthenticationError
    | RateLimitError
    | InvalidSymbolError
    | EmptyDataError
    | DataValidationError
    /** Documented as the error a circuit breaker would raise; nothing raises it. */
    | ProviderUnavailableError

  /** The underlying exception is kept only as its text. */
  datatype DataProviderError = DataProviderError(
    kind: ErrorKind,
    provider: string,
    message: string,
    originalError: Option<string>)

  /** `isinstance(e, k)`: every kind is a subclass of the base error, and no
      kind is a subclass of another. */
  predicate IsInstance(e: DataProviderError, k: ErrorKind)
  {
    k == BaseError || e.kind == k
  }

  lemma EveryKindIsADataProviderError(e: DataProviderError)
    ensures IsInstance(e, BaseError)
    ensures forall k :: IsInstance(e, k) <==> (k == BaseError || k == e.kind)
  {
  }

  /** Constructing an error of any kind stores the three arguments unchanged. */
  function NewError(kind: ErrorKind, provider: string, message: string,
                    originalError: Option<string> := None): (e: DataProviderError)
    ensures e.kind == kind && e.provider == provider && e.message == message
    ensures e.originalError == originalError
  {
    DataProviderError(kind, provider, message, originalError)
  }

  /** `str(e)`. */
  function ErrorText(e: DataProviderError): string
  {
    "[" + e.provider + "] " + e.message
  }

  function IndexOf(s: string, c: char): (r: Option<nat>)
    ensures r.Some? ==> r.value < |s| && s[r.value] == c && c !in s[..r.value]
    ensures r.None? ==> c !in s
  {
    if |s| == 0 then None
    else if s[0] == c then Some(0)
    else match IndexOf(s[1..], c)
      case None => None
      case Some(k) =>
        assert s[..k + 1] == [s[0]] + s[1..][..k];
        Some(k + 1)
  }

  /** Reads the provider and message back from an error text. */
  function ParseErrorText(t: string): (r: Option<(string, string)>)
  {
    if |t| == 0 || t[0] != '[' then None
    else match IndexOf(t[1..], ']')
      case None => None
      case Some(k) =>
        if k + 2 < |t| && t[k + 2] == ' ' then Some((t[1..k + 1], t[k + 3..])) else None
  }

  lemma {:induction false} IndexOfFirst(s: string, c: char, k: nat)
    requires k < |s| && s[k] == c && c !in s[..k]
    ensures IndexOf(s, c) == Some(k)
  {
    if k > 0 {
      assert s[0] in s[..k];
      assert s[1..][..k - 1] == s[1..k];
      assert s[1..k] == s[..k][1..];
      IndexOfFirst(s[1..], c, k - 1);
    }
  }

  /** The error text determines provider and message whenever the provider name
      contains no closing bracket. */
  lemma ErrorTextRoundTrip(e: DataProviderError)
    requires ']' !in e.provider
    ensures ParseErrorText(ErrorText(e)) == Some((e.provider, e.message))
  {
    var t := ErrorText(e);
    var p := e.provider;
    assert t[1..] == p + "] " + e.message;
    assert t[1..][..|p|] == p;
    IndexOfFirst(t[1..], ']', |p|);
    assert t[1..|p| + 1] == p;
    assert t[|p| + 3..] == e.message;
  }
}
