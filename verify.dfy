/** The certificate verifier: a schema pass whose errors are all reported,
    sorted by location, and, only when that pass is clean and an artifact
    is given, a comparison of the artifact's SHA-256 digest with the one
    the certificate records. The schema validator and SHA-256 are oracles;
    the artifact is given by its bytes. */
module Verifier {
  import opened Json
  import opened Text
  import opened Order
  import opened Schema

  datatype VerifyResult = VerifyResult(isValid: bool, errors: seq<string>)

  const HashMissing: string := "artifact.hash missing from certificate (required for --artifact verification)"
  const HashMismatch: string := "artifact hash mismatch"
  const NotAnObject: string := "certificate JSON must be an object"

  /** `".".join(str(p) for p in error.absolute_path) or "<root>"`. */
  function Location(path: seq<PathElem>): string
  {
    var dotted := DottedPath(path);
    if dotted == "" then "<root>" else dotted
  }

  function ErrorLine(e: SchemaError): string
  {
    Location(e.path) + ": " + e.message
  }

  function ErrorLines(errs: seq<SchemaError>): (lines: seq<string>)
    ensures |lines| == |errs|
    ensures forall i :: 0 <= i < |errs| ==> lines[i] == ErrorLine(errs[i])
  {
    seq(|errs|, i requires 0 <= i < |errs| => ErrorLine(errs[i]))
  }

  /** The schema errors in the order they are reported. */
  function SortedErrors(cert: Dict<Json>, validator: Validator): seq<SchemaError>
  {
    Sort(validator(Obj(cert)), ErrorLe)
  }

  /** `certificate.get("artifact", {}).get("hash")`; an `artifact` that is
      not a dict has no `get`. */
  function ExpectedHash(cert: Dict<Json>): Result<Option<Json>, Fault>
  {
    var artifact := GetOr(cert, "artifact", Obj([]));
    if artifact.Obj? then Ok(Lookup(artifact.fields, "hash"))
    else Err(AttributeError("artifact has no attribute 'get'"))
  }

  /** The recorded hash is usable: a non-empty string. */
  predicate UsableHash(expected: Option<Json>)
  {
    expected.Some? && expected.value.Str? && expected.value.s != ""
  }

  /** What `verify_certificate` returns or raises, given the bytes of the
      artifact file when a path is given. */
  function VerifyOutcome(cert: Dict<Json>, artifact: Option<seq<byte>>, validator: Validator, sha: Sha)
    : (r: Result<VerifyResult, Fault>)
    ensures r.Ok? ==> (r.value.isValid <==> r.value.errors == [])
  {
    var schemaErrors := SortedErrors(cert, validator);
    if schemaErrors != [] then Ok(VerifyResult(false, ErrorLines(schemaErrors)))
    else if artifact.None? then Ok(VerifyResult(true, []))
    else
      var expected :- ExpectedHash(cert);
      if !UsableHash(expected) then Ok(VerifyResult(false, [HashMissing]))
      else
        var actual := sha(artifact.value);
        if actual != expected.value.s then
          Ok(VerifyResult(false, [HashMismatch, "expected: " + expected.value.s, "actual:   " + actual]))
        else Ok(VerifyResult(true, []))
  }

  /** `verify_certificate`. */
  method VerifyCertificate(cert: Dict<Json>, artifact: Option<seq<byte>>, validator: Validator, sha: Sha)
    returns (r: Result<VerifyResult, Fault>)
    ensures r == VerifyOutcome(cert, artifact, validator, sha)
  {
    var errors := FormatErrors(SortedErrors(cert, validator));
    if errors != [] {
      return Ok(VerifyResult(false, errors));
    }
    if artifact.Some? {
      var expected :- ExpectedHash(cert);
      if !UsableHash(expected) {
        return Ok(VerifyResult(false, [HashMissing]));
      }
      var actual := sha(artifact.value);
      if actual != expected.value.s {
        return Ok(VerifyResult(false, [HashMismatch, "expected: " + expected.value.s, "actual:   " + actual]));
      }
    }
    return Ok(VerifyResult(true, []));
  }

  /** The loop of `verify_certificate` that formats each schema error in turn. */
  method FormatErrors(errs: seq<SchemaError>) returns (errors: seq<string>)
    ensures errors == ErrorLines(errs)
  {
    errors := [];
    for i := 0 to |errs|
      invariant errors == ErrorLines(errs[..i])
    {
      var line := ErrorLine(errs[i]);
      assert ErrorLines(errs[..i + 1]) == ErrorLines(errs[..i]) + [line];
      errors := errors + [line];
    }
    assert errs[..|errs|] == errs;
  }

  /** `verify_certificate_file` on the parsed document. */
  function VerifyFileOutcome(document: Json, artifact: Option<seq<byte>>, validator: Validator, sha: Sha)
    : (r: Result<VerifyResult, Fault>)
    ensures !document.Obj? ==> r == Ok(VerifyResult(false, [NotAnObject]))
    ensures document.Obj? ==> r == VerifyOutcome(document.fields, artifact, validator, sha)
  {
    if !document.Obj? then Ok(VerifyResult(false, [NotAnObject]))
    else VerifyOutcome(document.fields, artifact, validator, sha)
  }

  /** Schema errors end the verification: the outcome is invalid and does
      not depend on the artifact or its digest. */
  lemma SchemaErrorsShortCircuit(cert: Dict<Json>, validator: Validator,
                                 artifact1: Option<seq<byte>>, sha1: Sha,
                                 artifact2: Option<seq<byte>>, sha2: Sha)
    requires validator(Obj(cert)) != []
    ensures VerifyOutcome(cert, artifact1, validator, sha1).Ok?
    ensures !VerifyOutcome(cert, artifact1, validator, sha1).value.isValid
    ensures VerifyOutcome(cert, artifact1, validator, sha1) == VerifyOutcome(cert, artifact2, validator, sha2)
  {
    assert |SortedErrors(cert, validator)| == |validator(Obj(cert))|;
  }

  /** Every schema error is reported, once, as `<location>: <message>`,
      and the lines follow the errors sorted by their paths. */
  lemma SchemaErrorsReported(cert: Dict<Json>, validator: Validator, artifact: Option<seq<byte>>, sha: Sha)
    requires validator(Obj(cert)) != []
    ensures var sorted := SortedErrors(cert, validator);
            VerifyOutcome(cert, artifact, validator, sha) == Ok(VerifyResult(false, ErrorLines(sorted)))
            && multiset(sorted) == multiset(validator(Obj(cert)))
            && SortedBy(sorted, ErrorLe)
    ensures forall e :: e in validator(Obj(cert)) ==>
              ErrorLine(e) in VerifyOutcome(cert, artifact, validator, sha).value.errors
  {
    var errs := validator(Obj(cert));
    var sorted := SortedErrors(cert, validator);
    assert |sorted| == |errs|;
    ErrorLePreorder();
    SortSorted(errs, ErrorLe);
    forall e | e in errs ensures ErrorLine(e) in ErrorLines(sorted) {
      assert e in multiset(sorted);
      var i :| 0 <= i < |sorted| && sorted[i] == e;
      assert ErrorLines(sorted)[i] == ErrorLine(e);
    }
  }

  /** Errors that sort alike, those at the same path, are reported in the
      order the validator produced them: Python's `sorted` is stable. */
  lemma SchemaErrorsStable(cert: Dict<Json>, validator: Validator, e: SchemaError)
    ensures Equivalents(SortedErrors(cert, validator), e, ErrorLe) == Equivalents(validator(Obj(cert)), e, ErrorLe)
  {
    ErrorLePreorder();
    SortStable(validator(Obj(cert)), e, ErrorLe);
  }

  /** A clean certificate without an artifact is valid, with no errors. */
  lemma CleanWithoutArtifactValid(cert: Dict<Json>, validator: Validator, sha: Sha)
    requires validator(Obj(cert)) == []
    ensures VerifyOutcome(cert, None, validator, sha) == Ok(VerifyResult(true, []))
  {
    assert SortedErrors(cert, validator) == [];
  }

  /** With a clean schema pass and an artifact, a missing, non-string or
      empty recorded hash is exactly what yields the single
      "artifact.hash missing" error. */
  lemma HashMissingReported(cert: Dict<Json>, validator: Validator, content: seq<byte>, sha: Sha)
    requires validator(Obj(cert)) == [] && ExpectedHash(cert).Ok?
    ensures VerifyOutcome(cert, Some(content), validator, sha).Ok?
    ensures VerifyOutcome(cert, Some(content), validator, sha).value.errors == [HashMissing]
            <==> !UsableHash(ExpectedHash(cert).value)
  {
    assert SortedErrors(cert, validator) == [];
  }

  /** With a usable recorded hash, the outcome is invalid exactly when the
      digest differs, and then it carries exactly the three mismatch lines. */
  lemma HashCompared(cert: Dict<Json>, validator: Validator, content: seq<byte>, sha: Sha)
    requires validator(Obj(cert)) == [] && ExpectedHash(cert).Ok? && UsableHash(ExpectedHash(cert).value)
    ensures var r := VerifyOutcome(cert, Some(content), validator, sha);
            var expected := ExpectedHash(cert).value.value.s;
            r.Ok?
            && (r.value.isValid <==> sha(content) == expected)
            && (!r.value.isValid ==>
                  r.value.errors == [HashMismatch, "expected: " + expected, "actual:   " + sha(content)])
  {
    assert SortedErrors(cert, validator) == [];
  }

  /** The only fault: an artifact entry that is not a dict, reached only
      when the schema pass is clean and an artifact is given. */
  lemma VerifyFault(cert: Dict<Json>, artifact: Option<seq<byte>>, validator: Validator, sha: Sha)
    ensures VerifyOutcome(cert, artifact, validator, sha).Err? <==>
              validator(Obj(cert)) == [] && artifact.Some? && ExpectedHash(cert).Err?
  {
    assert |SortedErrors(cert, validator)| == |validator(Obj(cert))|;
  }
}
