/**
 * Composite import identifiers `<a>/<b>`, shared by the ImportState methods of
 * the repository secret, organization secret, registry and cron resources.
 */
module ImportIds {
  import opened Wrappers
  import opened GoStrconv
  import opened GoStrings
  import opened Framework

  /** `importStateIDSeparator`. */
  const Separator: char := '/'

  /** The accepted shape: exactly one separator, at neither end. */
  predicate IsPair(id: string) {
    Count(id, Separator) == 1 && |id| > 0 && id[0] != Separator && id[|id| - 1] != Separator
  }

  /**
   * `strings.Split(req.ID, "/")` followed by the check
   * `len(idParts) != 2 || idParts[0] == "" || idParts[1] == ""`: the two parts
   * when the identifier is accepted.
   */
  function SplitPair(id: string): (r: Option<(string, string)>)
    ensures r.Some? <==> IsPair(id)
    ensures r.Some? ==> r.value.0 != "" && r.value.1 != "" && Separator !in r.value.0 && Separator !in r.value.1
    ensures r.Some? ==> id == r.value.0 + [Separator] + r.value.1
  {
    var parts := Split(id, Separator);
    SplitLast(id, Separator);
    if |parts| != 2 || parts[0] == "" || parts[1] == "" then None
    else
      assert parts[1..] == [parts[1]];
      assert Join(parts, Separator) == parts[0] + [Separator] + Join(parts[1..], Separator);
      Some((parts[0], parts[1]))
  }

  /** Two non-empty separator-free halves are accepted and given back. */
  lemma SplitPairHalves(a: string, b: string)
    requires a != "" && b != "" && Separator !in a && Separator !in b
    ensures SplitPair(a + [Separator] + b) == Some((a, b))
  {
    SplitTwo(a, b, Separator);
  }

  /** The rejected shapes listed by the resources' acceptance tests. */
  lemma SplitPairRejects()
    ensures SplitPair("") == None && SplitPair("/") == None && SplitPair("a/") == None
    ensures SplitPair("/b") == None && SplitPair("1/a/b") == None
  {
    assert Count("1/a/b", Separator) == 2;
  }

  const UnexpectedSummary := "Unexpected Import Identifier"
  const ExpectedFormatPrefix := "Expected import identifier with format: "
  const GotInfix := ". Got: "

  /** The error for an identifier of the wrong shape: the detail names the format and ends with the quoted identifier. */
  function UnexpectedImportIdentifier(format: string, id: string): (d: Diagnostic)
    ensures d.summary == UnexpectedSummary
    ensures |d.detail| == |ExpectedFormatPrefix| + |format| + |GotInfix| + |id| + 2
    ensures d.detail[|ExpectedFormatPrefix|..|ExpectedFormatPrefix| + |format|] == format
    ensures d.detail[|d.detail| - |id| - 1..|d.detail| - 1] == id
  {
    Diagnostic(UnexpectedSummary, ExpectedFormatPrefix + format + GotInfix + Quote(id))
  }

  const InvalidRepositoryId := "Invalid repository id"

  /**
   * `<int64>/<key>` (repository_id/name, org_id/name, repository_id/address):
   * the shape is checked first, then the first part is parsed with
   * `strconv.ParseInt(_, 10, 64)`; a parse error is reported as "Invalid
   * repository id" with the parser's message, whatever the first part names.
   */
  function ParseKeyed(id: string, format: string): (r: Result<(Int64, string), Diagnostic>)
    ensures !IsPair(id) <==> r == Failure(UnexpectedImportIdentifier(format, id))
    ensures r.Failure? && IsPair(id) ==> r.error.summary == InvalidRepositoryId
    ensures r.Success? ==> var k := r.value.1;
      k != "" && Separator !in k && |k| + 1 < |id| &&
      id[|id| - |k| - 1..] == [Separator] + k &&
      ParseInt64(id[..|id| - |k| - 1]) == Success(r.value.0)
  {
    match SplitPair(id)
    case None => Failure(UnexpectedImportIdentifier(format, id))
    case Some((a, b)) =>
      assert id[..|a|] == a && id[|a|..] == [Separator] + b;
      match ParseInt64(a)
      case Failure(e) => Failure(Diagnostic(InvalidRepositoryId, e.Error()))
      case Success(n) => Success((n, b))
  }

  /** On an accepted shape, the outcome is decided by parsing the first half alone. */
  lemma ParseKeyedHalves(a: string, b: string, format: string)
    requires a != "" && b != "" && Separator !in a && Separator !in b
    ensures ParseKeyed(a + [Separator] + b, format) ==
      match ParseInt64(a)
      case Success(n) => Success((n, b))
      case Failure(e) => Failure(Diagnostic(InvalidRepositoryId, e.Error()))
  {
    SplitPairHalves(a, b);
  }

  /** `fmt.Sprintf("%d/%s", id, key)` parses back to (id, key) for any non-empty key without a separator. */
  lemma ParseKeyedRoundTrip(n: Int64, key: string, format: string)
    requires key != "" && Separator !in key
    ensures ParseKeyed(FormatInt64(n) + "/" + key, format) == Success((n, key))
  {
    FormatHasNoSlash(n);
    FormatParseRoundTrip(n);
    FormatIsDecimal(n);
    ParseKeyedHalves(FormatInt64(n), key, format);
  }

  /** A first part that is not a decimal int64 is an "Invalid repository id". */
  lemma ParseKeyedBadId()
    ensures ParseKeyed("abc" + "/" + "secret", "repository_id/name") ==
      Failure(Diagnostic(InvalidRepositoryId, NumError("ParseInt", "abc", ErrSyntax).Error()))
  {
    assert ParseInt64("abc") == Failure(NumError("ParseInt", "abc", ErrSyntax)) by {
      assert !IsDigit('a') && Unsigned("abc") == "abc";
    }
    ParseKeyedHalves("abc", "secret", "repository_id/name");
  }

  const InvalidCronId := "Invalid cron id"

  /**
   * `<int64>/<int64>` (repository_id/id): the shape, then the repository id,
   * then the cron id, each failure ending the parse with one error.
   */
  function ParseIdPair(id: string, format: string): (r: Result<(Int64, Int64), Diagnostic>)
    ensures !IsPair(id) <==> r == Failure(UnexpectedImportIdentifier(format, id))
    ensures r.Success? <==> ParseKeyed(id, format).Success? && ParseInt64(ParseKeyed(id, format).value.1).Success?
    ensures r.Success? ==> r.value == (ParseKeyed(id, format).value.0, ParseInt64(ParseKeyed(id, format).value.1).value)
    ensures r.Failure? && ParseKeyed(id, format).Success? ==> r.error.summary == InvalidCronId
    ensures ParseKeyed(id, format).Failure? ==> r == Failure(ParseKeyed(id, format).error)
  {
    match ParseKeyed(id, format)
    case Failure(d) => Failure(d)
    case Success((repoId, b)) =>
      match ParseInt64(b)
      case Failure(e) => Failure(Diagnostic(InvalidCronId, e.Error()))
      case Success(cronId) => Success((repoId, cronId))
  }

  /** When both halves are bad, only the repository id is reported. */
  lemma ParseIdPairChecksRepositoryFirst(a: string, b: string, format: string)
    requires a != "" && b != "" && Separator !in a && Separator !in b
    requires ParseInt64(a).Failure?
    ensures ParseIdPair(a + [Separator] + b, format) == Failure(Diagnostic(InvalidRepositoryId, ParseInt64(a).error.Error()))
  {
    ParseKeyedHalves(a, b, format);
  }

  /** `fmt.Sprintf("%d/%d", repoID, id)` parses back to the pair. */
  lemma ParseIdPairRoundTrip(repoId: Int64, cronId: Int64, format: string)
    ensures ParseIdPair(FormatInt64(repoId) + "/" + FormatInt64(cronId), format) == Success((repoId, cronId))
  {
    FormatIsDecimal(cronId);
    FormatParseRoundTrip(cronId);
    FormatHasNoSlash(cronId);
    ParseKeyedRoundTrip(repoId, FormatInt64(cronId), format);
  }

  /**
   * The ImportState pattern of the keyed resources: on an error, the
   * diagnostic and no attribute; otherwise exactly the two attributes, the
   * parsed id under idAttr and the second part under keyAttr.
   */
  method ImportKeyed(id: string, format: string, idAttr: string, keyAttr: string, resp: ImportResponse)
    modifies resp
    ensures ParseKeyed(id, format).Failure? ==>
      resp.diagnostics == old(resp.diagnostics) + [ParseKeyed(id, format).error] &&
      resp.attributes == old(resp.attributes)
    ensures ParseKeyed(id, format).Success? ==>
      var (n, key) := ParseKeyed(id, format).value;
      resp.diagnostics == old(resp.diagnostics) &&
      resp.attributes == old(resp.attributes)[idAttr := IntAttr(n)][keyAttr := StrAttr(key)]
  {
    match ParseKeyed(id, format)
    case Failure(d) =>
      resp.AddError(d.summary, d.detail);
    case Success((n, key)) =>
      resp.SetAttribute(idAttr, IntAttr(n));
      resp.SetAttribute(keyAttr, StrAttr(key));
  }
}
