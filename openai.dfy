/**
 * `analyzePlantImage`: the vision model's reply, once parsed, is turned
 * into a `PestDetectionResult` whose every field is defaulted or clamped on
 * its own, and every failure of the call or of the parse becomes one fixed
 * error.
 */
module Openai {

  import opened Wrappers

  datatype Severity = Mild | Moderate | Severe

  datatype Urgency = Low | Medium | High

  /** The JSON spelling of a severity. */
  function SeverityName(s: Severity): string {
    match s
    case Mild => "mild"
    case Moderate => "moderate"
    case Severe => "severe"
  }

  /** The JSON spelling of an urgency. */
  function UrgencyName(u: Urgency): string {
    match u
    case Low => "low"
    case Medium => "medium"
    case High => "high"
  }

  const SeverityNames: seq<string> := ["mild", "moderate", "severe"]
  const UrgencyNames: seq<string> := ["low", "medium", "high"]

  /** The eight fields the analyser promises its callers. */
  datatype PestDetectionResult = PestDetectionResult(
    disease: string,
    malayalam: string,
    confidence: int,
    severity: Severity,
    treatment: string,
    malayalamTreatment: string,
    preventionTips: seq<string>,
    urgency: Urgency)

  /** What `preventionTips` held in the reply: an array (elements taken as they are) or anything else. */
  datatype TipsField = TipsArray(tips: seq<string>) | NotArray

  /**
   * The value `JSON.parse` produced from the model's reply, when it is not
   * `null`. An absent or `null` field is `None`; fields the analyser does not
   * read are kept in `unknownFields`. A number, string, boolean or array has
   * no such fields, so it is the reply whose every field is `None`.
   */
  datatype ParsedReply = ParsedReply(
    disease: Option<string>,
    malayalam: Option<string>,
    confidence: Option<int>,
    severity: Option<string>,
    treatment: Option<string>,
    malayalamTreatment: Option<string>,
    preventionTips: TipsField,
    urgency: Option<string>,
    unknownFields: map<string, string>)

  const DefaultDisease: string := "Unknown condition"
  const DefaultMalayalam: string := "അജ്ഞാത അവസ്ഥ"
  const DefaultTreatment: string := "Consult local agricultural extension officer"
  const DefaultMalayalamTreatment: string := "പ്രാദേശിക കൃഷി വിപുലീകരണ ഉദ്യോഗസ്ഥനെ സമീപിക്കുക"

  /** JavaScript truthiness of an optional string: present and not empty. */
  predicate Truthy(v: Option<string>) {
    v.Some? && v.value != ""
  }

  /** `v || fallback` on an optional string. */
  function OrDefault(v: Option<string>, fallback: string): string {
    if Truthy(v) then v.value else fallback
  }

  /** `Math.max(0, Math.min(100, v || 0))` on an optional integer. */
  function ClampConfidence(v: Option<int>): int {
    var c := if v.Some? then v.value else 0;
    var upper := if 100 < c then 100 else c;
    if 0 < upper then upper else 0
  }

  /** `['mild', 'moderate', 'severe'].includes(v) ? v : 'moderate'`. */
  function ParseSeverity(v: Option<string>): Severity {
    if v == Some("mild") then Mild
    else if v == Some("severe") then Severe
    else Moderate
  }

  /** `['low', 'medium', 'high'].includes(v) ? v : 'medium'`. */
  function ParseUrgency(v: Option<string>): Urgency {
    if v == Some("low") then Low
    else if v == Some("high") then High
    else Medium
  }

  /** `Array.isArray(v) ? v : []`. */
  function TipsOrEmpty(v: TipsField): seq<string> {
    match v
    case TipsArray(tips) => tips
    case NotArray => []
  }

  /** The schema the sanitiser guarantees: no text field empty and the confidence a percentage. */
  predicate WellFormed(r: PestDetectionResult) {
    && r.disease != ""
    && r.malayalam != ""
    && 0 <= r.confidence <= 100
    && r.treatment != ""
    && r.malayalamTreatment != ""
  }

  /** The object literal that builds the analyser's result from the parsed reply. */
  function Sanitize(reply: ParsedReply): (r: PestDetectionResult)
    ensures WellFormed(r)
  {
    PestDetectionResult(
      OrDefault(reply.disease, DefaultDisease),
      OrDefault(reply.malayalam, DefaultMalayalam),
      ClampConfidence(reply.confidence),
      ParseSeverity(reply.severity),
      OrDefault(reply.treatment, DefaultTreatment),
      OrDefault(reply.malayalamTreatment, DefaultMalayalamTreatment),
      TipsOrEmpty(reply.preventionTips),
      ParseUrgency(reply.urgency))
  }

  /** A result written back out as the JSON object it is sent as. */
  function Embed(r: PestDetectionResult): ParsedReply {
    ParsedReply(
      Some(r.disease), Some(r.malayalam), Some(r.confidence),
      Some(SeverityName(r.severity)), Some(r.treatment), Some(r.malayalamTreatment),
      TipsArray(r.preventionTips), Some(UrgencyName(r.urgency)), map[])
  }

  /** What came back from the chat-completion call, after `JSON.parse` of its content. */
  datatype Upstream =
    | CallFailed          // the request threw (network, HTTP status, credentials)
    | Unparseable         // the content was not JSON
    | ParsedNull          // the content was `null`, so reading `result.disease` throws
    | Parsed(reply: ParsedReply)  // any other JSON value

  const AnalysisFailedMessage: string := "Failed to analyze plant image"

  /** `analyzePlantImage`, with the chat-completion call given as its outcome. */
  function AnalyzePlantImage(upstream: Upstream): (r: Result<PestDetectionResult, string>)
    ensures r.Success? ==> WellFormed(r.value)
    ensures r.Failure? ==> r.error == AnalysisFailedMessage
    ensures r.Success? <==> upstream.Parsed?
  {
    match upstream
    case Parsed(reply) => Success(Sanitize(reply))
    case _ => Failure(AnalysisFailedMessage)
  }

  // ---- Properties of the sanitiser ----

  /** The confidence is always a percentage: missing or zero gives 0, too large gives 100, negative gives 0, else unchanged. */
  lemma ConfidenceClamped(reply: ParsedReply)
    ensures 0 <= Sanitize(reply).confidence <= 100
    ensures reply.confidence.None? ==> Sanitize(reply).confidence == 0
    ensures reply.confidence.Some? && reply.confidence.value > 100 ==> Sanitize(reply).confidence == 100
    ensures reply.confidence.Some? && reply.confidence.value < 0 ==> Sanitize(reply).confidence == 0
    ensures reply.confidence.Some? && 0 <= reply.confidence.value <= 100 ==>
              Sanitize(reply).confidence == reply.confidence.value
  {
  }

  /** The severity keeps the model's value exactly when it is one of the three names, and is `moderate` otherwise. */
  lemma SeverityKeptIffValid(reply: ParsedReply)
    ensures Some(SeverityName(Sanitize(reply).severity)) == reply.severity <==>
              reply.severity.Some? && reply.severity.value in SeverityNames
    ensures !(reply.severity.Some? && reply.severity.value in SeverityNames) ==> Sanitize(reply).severity == Moderate
  {
  }

  /** The urgency keeps the model's value exactly when it is one of the three names, and is `medium` otherwise. */
  lemma UrgencyKeptIffValid(reply: ParsedReply)
    ensures Some(UrgencyName(Sanitize(reply).urgency)) == reply.urgency <==>
              reply.urgency.Some? && reply.urgency.value in UrgencyNames
    ensures !(reply.urgency.Some? && reply.urgency.value in UrgencyNames) ==> Sanitize(reply).urgency == Medium
  {
  }

  /** Each text field keeps a non-empty string from the model and otherwise takes its fixed default. */
  lemma TextFieldsDefaulted(reply: ParsedReply)
    ensures Sanitize(reply).disease == if Truthy(reply.disease) then reply.disease.value else DefaultDisease
    ensures Sanitize(reply).malayalam == if Truthy(reply.malayalam) then reply.malayalam.value else DefaultMalayalam
    ensures Sanitize(reply).treatment == if Truthy(reply.treatment) then reply.treatment.value else DefaultTreatment
    ensures Sanitize(reply).malayalamTreatment ==
              if Truthy(reply.malayalamTreatment) then reply.malayalamTreatment.value else DefaultMalayalamTreatment
  {
  }

  /** The prevention tips are the model's array untouched, or empty when the field is not an array. */
  lemma TipsKeptOnlyIfArray(reply: ParsedReply)
    ensures reply.preventionTips.TipsArray? ==> Sanitize(reply).preventionTips == reply.preventionTips.tips
    ensures reply.preventionTips.NotArray? ==> Sanitize(reply).preventionTips == []
  {
  }

  /**
   * Fields are defaulted independently: an output field depends on its own
   * input field only, and fields the result does not declare are dropped.
   */
  lemma FieldsIndependent(a: ParsedReply, b: ParsedReply)
    ensures a.disease == b.disease ==> Sanitize(a).disease == Sanitize(b).disease
    ensures a.malayalam == b.malayalam ==> Sanitize(a).malayalam == Sanitize(b).malayalam
    ensures a.confidence == b.confidence ==> Sanitize(a).confidence == Sanitize(b).confidence
    ensures a.severity == b.severity ==> Sanitize(a).severity == Sanitize(b).severity
    ensures a.treatment == b.treatment ==> Sanitize(a).treatment == Sanitize(b).treatment
    ensures a.malayalamTreatment == b.malayalamTreatment ==>
              Sanitize(a).malayalamTreatment == Sanitize(b).malayalamTreatment
    ensures a.preventionTips == b.preventionTips ==> Sanitize(a).preventionTips == Sanitize(b).preventionTips
    ensures a.urgency == b.urgency ==> Sanitize(a).urgency == Sanitize(b).urgency
    ensures a.(unknownFields := b.unknownFields) == b ==> Sanitize(a) == Sanitize(b)
  {
  }

  /** A well-formed result sent back through the sanitiser comes out unchanged. */
  lemma {:induction false} EmbedRoundTrip(r: PestDetectionResult)
    requires WellFormed(r)
    ensures Sanitize(Embed(r)) == r
  {
    match r.severity {
      case Mild =>
      case Moderate =>
      case Severe =>
    }
    match r.urgency {
      case Low =>
      case Medium =>
      case High =>
    }
  }

  /** Sanitising an already sanitised result changes nothing. */
  lemma {:induction false} SanitizeIdempotent(reply: ParsedReply)
    ensures Sanitize(Embed(Sanitize(reply))) == Sanitize(reply)
  {
    EmbedRoundTrip(Sanitize(reply));
  }

  /** A failed call, an unparseable body or a `null` body gives the one fixed error and never a partial result. */
  lemma FailuresAreWhole(upstream: Upstream)
    ensures !upstream.Parsed? ==> AnalyzePlantImage(upstream) == Failure(AnalysisFailedMessage)
  {
  }

  /** The reply `{disease: "Coconut Leaf Blight", confidence: 150, severity: "extreme", preventionTips: "none"}`. */
  lemma CoconutLeafBlightExample()
    ensures var r := Sanitize(ParsedReply(Some("Coconut Leaf Blight"), None, Some(150), Some("extreme"),
                                          None, None, NotArray, None, map[]));
            && r.disease == "Coconut Leaf Blight" && r.confidence == 100 && r.severity == Moderate
            && r.preventionTips == [] && r.urgency == Medium && r.malayalam == DefaultMalayalam
  {
  }
}
