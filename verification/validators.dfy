/** Input checks and coercions of the damage-analysis endpoint: the image
    data-URI guard, the confidence correction and the severity coercion. */
module Validators {
  import opened Wrappers
  import opened JsValues

  /** Shortest image payload accepted, in characters. */
  const MIN_IMAGE_LENGTH: nat := 100
  /** Largest confidence that is read as a fraction rather than a percentage. */
  const MAX_CONFIDENCE: real := 1.0

  /** The three severity levels, in the order the source lists them. */
  datatype Severity = Minor | Moderate | Severe {
    function Name(): string {
      match this
      case Minor => "minor"
      case Moderate => "moderate"
      case Severe => "severe"
    }
  }

  // ---------------------------------------------------------------------
  // Image data URI
  // ---------------------------------------------------------------------

  const PNG_PREFIX: string := "data:image/png;base64,"
  const JPG_PREFIX: string := "data:image/jpg;base64,"
  const JPEG_PREFIX: string := "data:image/jpeg;base64,"
  const WEBP_PREFIX: string := "data:image/webp;base64,"

  /** The string starts with one of the four accepted data-URI headers
      (`<=` on sequences is the prefix relation). */
  predicate HasImagePrefix(s: string) {
    PNG_PREFIX <= s || JPG_PREFIX <= s || JPEG_PREFIX <= s || WEBP_PREFIX <= s
  }

  const URI_HEAD: string := "data:image/"
  const BASE64_MARKER: string := ";base64,"

  /** The anchored pattern `data:image/(png|jpg|jpeg|webp);base64,` read
      piece by piece: the fixed head, one alternative, the fixed marker. */
  predicate MatchesImagePattern(s: string) {
    && URI_HEAD <= s
    && var rest := s[|URI_HEAD|..];
       || "png" + BASE64_MARKER <= rest
       || "jpg" + BASE64_MARKER <= rest
       || "jpeg" + BASE64_MARKER <= rest
       || "webp" + BASE64_MARKER <= rest
  }

  lemma PatternIsPrefixTest(s: string)
    ensures MatchesImagePattern(s) <==> HasImagePrefix(s)
  {
    assert PNG_PREFIX == URI_HEAD + ("png" + BASE64_MARKER);
    assert JPG_PREFIX == URI_HEAD + ("jpg" + BASE64_MARKER);
    assert JPEG_PREFIX == URI_HEAD + ("jpeg" + BASE64_MARKER);
    assert WEBP_PREFIX == URI_HEAD + ("webp" + BASE64_MARKER);
    forall tail: string | tail in ["png" + BASE64_MARKER, "jpg" + BASE64_MARKER, "jpeg" + BASE64_MARKER, "webp" + BASE64_MARKER]
      ensures URI_HEAD + tail <= s <==> URI_HEAD <= s && tail <= s[|URI_HEAD|..]
    {
      SplitPrefix(URI_HEAD, tail, s);
    }
  }

  /** A concatenation is a prefix exactly when its two parts are, one after the other. */
  lemma SplitPrefix(a: string, b: string, s: string)
    ensures a + b <= s <==> a <= s && b <= s[|a|..]
  {
    if a + b <= s {
      assert s[..|a|] == (a + b)[..|a|] == a;
      assert s[|a|..][..|b|] == s[|a|..|a| + |b|] == (a + b)[|a|..] == b;
    }
    if a <= s && b <= s[|a|..] {
      assert s[..|a| + |b|] == s[..|a|] + s[|a|..][..|b|];
    }
  }

  /** `validateImageData`: a length guard followed by the data-URI pattern.
      Nothing after the header is inspected. */
  function ValidateImageData(imageBase64: string): (ok: bool)
    ensures ok <==> |imageBase64| >= MIN_IMAGE_LENGTH && HasImagePrefix(imageBase64)
  {
    if imageBase64 == "" || |imageBase64| < MIN_IMAGE_LENGTH then false
    else
      PatternIsPrefixTest(imageBase64);
      MatchesImagePattern(imageBase64)
  }

  /** Only the header and the length decide: any two payloads of the same
      length behind the same accepted header are judged alike. */
  lemma PayloadIsNotInspected(header: string, a: string, b: string)
    requires header in [PNG_PREFIX, JPG_PREFIX, JPEG_PREFIX, WEBP_PREFIX]
    requires |a| == |b|
    ensures ValidateImageData(header + a) == ValidateImageData(header + b)
    ensures ValidateImageData(header + a) <==> |header| + |a| >= MIN_IMAGE_LENGTH
  {
    assert header <= header + a && header <= header + b;
  }

  /** The header comparison is case-sensitive: an upper-case subtype is refused. */
  lemma UpperCaseSubtypeRejected(payload: string)
    ensures !ValidateImageData("data:image/PNG;base64," + payload)
  {
    var s := "data:image/PNG;base64," + payload;
    assert s[11] == 'P';
    assert PNG_PREFIX[11] == 'p' && JPG_PREFIX[11] == 'j' && JPEG_PREFIX[11] == 'j' && WEBP_PREFIX[11] == 'w';
  }

  // ---------------------------------------------------------------------
  // Confidence
  // ---------------------------------------------------------------------

  /** `normalizeConfidence`: a value above 1 is read as a percentage and
      divided by 100, with no clamp afterwards; any other value is clamped
      into [0, 1]. */
  function NormalizeConfidence(confidence: real): (r: real)
    ensures confidence > MAX_CONFIDENCE ==> r * 100.0 == confidence && r > 0.0
    ensures 0.0 <= confidence <= MAX_CONFIDENCE ==> r == confidence
    ensures confidence < 0.0 ==> r == 0.0
    ensures r >= 0.0
  {
    if confidence > MAX_CONFIDENCE then confidence / 100.0
    else
      var atLeastZero := if confidence < 0.0 then 0.0 else confidence;
      if atLeastZero < MAX_CONFIDENCE then atLeastZero else MAX_CONFIDENCE
  }

  /** The result is a fraction in [0, 1] exactly when the input is at most 100. */
  lemma ConfidenceInUnitRangeIff(confidence: real)
    ensures 0.0 <= NormalizeConfidence(confidence) <= 1.0 <==> confidence <= 100.0
  {
  }

  /** Normalising twice changes nothing exactly when the input is at most 100;
      above that the second pass divides by 100 again. */
  lemma ConfidenceIdempotentIff(confidence: real)
    ensures NormalizeConfidence(NormalizeConfidence(confidence)) == NormalizeConfidence(confidence)
            <==> confidence <= 100.0
  {
    var once := NormalizeConfidence(confidence);
    if confidence > 100.0 {
      assert once > 1.0;
      assert NormalizeConfidence(once) * 100.0 == once;
      assert NormalizeConfidence(once) != once;
    } else {
      assert 0.0 <= once <= 1.0;
    }
  }

  // ---------------------------------------------------------------------
  // Severity
  // ---------------------------------------------------------------------

  predicate IsLowerLetter(c: char) {
    'a' <= c <= 'z'
  }

  function LowerChar(c: char): char {
    if 'A' <= c <= 'Z' then (c as int + 32) as char else c
  }

  function UpperChar(c: char): char {
    if IsLowerLetter(c) then (c as int - 32) as char else c
  }

  /** ASCII `toLowerCase`. */
  function Lower(s: string): (r: string)
    ensures |r| == |s|
    ensures forall i :: 0 <= i < |s| ==> r[i] == LowerChar(s[i])
  {
    seq(|s|, i requires 0 <= i < |s| => LowerChar(s[i]))
  }

  /** `s` spells the lower-case word `w` with any of its letters in upper case. */
  predicate CaseVariant(s: string, w: string) {
    |s| == |w| && forall i :: 0 <= i < |s| ==> s[i] == w[i] || s[i] == UpperChar(w[i])
  }

  predicate LowerWord(w: string) {
    forall i :: 0 <= i < |w| ==> IsLowerLetter(w[i])
  }

  lemma LowerIsCaseVariant(s: string, w: string)
    requires LowerWord(w)
    ensures Lower(s) == w <==> CaseVariant(s, w)
  {
    if Lower(s) == w {
      forall i | 0 <= i < |s| ensures s[i] == w[i] || s[i] == UpperChar(w[i]) {
        assert LowerChar(s[i]) == w[i];
      }
    }
    if CaseVariant(s, w) {
      forall i | 0 <= i < |s| ensures Lower(s)[i] == w[i] {
        assert IsLowerLetter(w[i]);
      }
    }
  }

  /** `validateSeverity` on a string: a case-insensitive match against the
      three levels, anything else becoming Moderate. */
  function ValidateSeverity(severity: string): (r: Severity)
    ensures CaseVariant(severity, "minor") <==> r == Minor
    ensures CaseVariant(severity, "severe") <==> r == Severe
    ensures CaseVariant(severity, "moderate") ==> r == Moderate
  {
    LowerIsCaseVariant(severity, "minor");
    LowerIsCaseVariant(severity, "moderate");
    LowerIsCaseVariant(severity, "severe");
    var normalized := Lower(severity);
    if normalized == "minor" then Minor
    else if normalized == "moderate" then Moderate
    else if normalized == "severe" then Severe
    else Moderate
  }

  /** Coercing a level's own name gives the level back, so the coercion is idempotent. */
  lemma SeverityIdempotent(severity: string)
    ensures ValidateSeverity(ValidateSeverity(severity).Name()) == ValidateSeverity(severity)
  {
    var level := ValidateSeverity(severity);
    SeverityNameRoundTrip(level);
  }

  lemma SeverityNameRoundTrip(level: Severity)
    ensures ValidateSeverity(level.Name()) == level
  {
    match level
    case Minor => assert CaseVariant("minor", "minor");
    case Moderate =>
      assert !CaseVariant("moderate", "minor");
      assert !CaseVariant("moderate", "severe");
    case Severe => assert CaseVariant("severe", "severe");
  }

  /** The TypeError of calling `toLowerCase` on a value that is not a string. */
  const SEVERITY_NOT_STRING: string := "severity.toLowerCase is not a function"

  /** `validateSeverity` applied to an arbitrary JavaScript value: only a
      string can be lower-cased, anything else throws. */
  function ValidateSeverityValue(severity: Json): (r: Result<Severity, string>)
    ensures r.Failure? <==> !severity.JStr?
    ensures r.Failure? ==> r.error == SEVERITY_NOT_STRING
    ensures r.Success? ==> r.value == ValidateSeverity(severity.s)
  {
    match severity
    case JStr(s) => Success(ValidateSeverity(s))
    case _ => Failure(SEVERITY_NOT_STRING)
  }
}
