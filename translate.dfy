/**
 * The message translator of the Antigravity adapter: neutral messages
 * become the vendor's `contents`, one content per message and one vendor
 * part per neutral part, order preserved.
 */
module MessageTranslation {
  import opened Wrappers
  import opened Js
  import opened Prompt

  datatype VendorRole = UserRole | ModelRole

  datatype VendorPart =
    | VendorText(text: string)
    | FunctionCall(name: string, args: Value, id: string)
    | FunctionResponse(name: string, response: Value)
      /** `{}`: what an unrecognised part becomes. */
    | EmptyPart

  datatype VendorContent = VendorContent(role: VendorRole, parts: seq<VendorPart>)

  /** The translation fails the way `m.content.map` does on a string: with a TypeError. */
  datatype TranslationError = ContentNotAList(messageIndex: nat)

  function TranslateRole(role: string): (r: VendorRole)
    ensures r == UserRole <==> role == "user"
  {
    if role == "user" then UserRole else ModelRole
  }

  /** One neutral part to one vendor part; an unknown part type becomes the empty part. */
  function TranslatePart(p: Part): (r: VendorPart)
    ensures r.EmptyPart? <==> p.OtherPart?
    ensures p.TextPart? ==> r == VendorText(p.text)
    ensures p.ToolCallPart? ==> r == FunctionCall(p.toolName, p.args, p.toolCallId)
    ensures p.ToolResultPart? ==> r == FunctionResponse(p.toolName, p.result)
  {
    match p
    case TextPart(text) => VendorText(text)
    case ToolCallPart(id, name, args) => FunctionCall(name, args, id)
    case ToolResultPart(_, name, result) => FunctionResponse(name, result)
    case OtherPart(_) => EmptyPart
  }

  function TranslateParts(ps: seq<Part>): (r: seq<VendorPart>)
    ensures |r| == |ps|
    ensures forall j :: 0 <= j < |ps| ==> r[j] == TranslatePart(ps[j])
  {
    if ps == [] then [] else [TranslatePart(ps[0])] + TranslateParts(ps[1..])
  }

  /**
   * `messages.map(...)`: succeeds exactly when every message carries a list
   * of parts, and then yields one content per message, in order, with the
   * message's role mapped and each of its parts translated in order. The
   * first message whose content is a string is the one reported.
   */
  function Translate(ms: seq<Message>): (r: Result<seq<VendorContent>, TranslationError>)
    ensures r.Success? <==> forall i :: 0 <= i < |ms| ==> ms[i].content.Parts?
    ensures r.Success? ==> |r.value| == |ms|
    ensures r.Success? ==> forall i :: 0 <= i < |ms| ==>
      r.value[i].role == TranslateRole(ms[i].role)
      && r.value[i].parts == TranslateParts(ms[i].content.parts)
    ensures r.Failure? ==> var k := r.error.messageIndex;
      k < |ms| && ms[k].content.PlainText? && forall i :: 0 <= i < k ==> ms[i].content.Parts?
    decreases |ms|
  {
    if ms == [] then Success([])
    else
      var m := ms[|ms| - 1];
      match Translate(ms[..|ms| - 1])
      case Failure(e) => Failure(e)
      case Success(init) =>
        match m.content
        case PlainText(_) => Failure(ContentNotAList(|ms| - 1))
        case Parts(ps) => Success(init + [VendorContent(TranslateRole(m.role), TranslateParts(ps))])
  }

  /** Translation distributes over concatenation: it never reorders or merges messages. */
  lemma {:induction false} TranslateAppend(a: seq<Message>, b: seq<Message>)
    requires Translate(a).Success? && Translate(b).Success?
    ensures Translate(a + b) == Success(Translate(a).value + Translate(b).value)
  {
    var ab := a + b;
    assert forall i :: 0 <= i < |ab| ==> ab[i].content.Parts? by {
      forall i | 0 <= i < |ab| ensures ab[i].content.Parts? {
        if i < |a| { assert ab[i] == a[i]; } else { assert ab[i] == b[i - |a|]; }
      }
    }
    var ra, rb, rab := Translate(a).value, Translate(b).value, Translate(ab).value;
    assert |rab| == |ra + rb|;
    forall i | 0 <= i < |rab| ensures rab[i] == (ra + rb)[i] {
      if i < |a| {
        assert ab[i] == a[i] && (ra + rb)[i] == ra[i];
      } else {
        assert ab[i] == b[i - |a|] && (ra + rb)[i] == rb[i - |a|];
      }
    }
    assert rab == ra + rb;
  }

  /** A tool call's id reaches the vendor unchanged, as `functionCall.id`. */
  lemma ToolCallIdPreserved(ms: seq<Message>, i: nat, j: nat)
    requires Translate(ms).Success?
    requires i < |ms| && j < |ms[i].content.parts| && ms[i].content.parts[j].ToolCallPart?
    ensures Translate(ms).value[i].parts[j].FunctionCall?
    ensures Translate(ms).value[i].parts[j].id == ms[i].content.parts[j].toolCallId
  {
  }
}
