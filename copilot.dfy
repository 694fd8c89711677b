/**
 * The GitHub Copilot model wrapper: it forwards identity to a wrapped
 * model and, on every call, sets the `X-Initiator` header of the caller's
 * options to who started the turn, `user` or `agent`, before delegating.
 */
module Copilot {
  import opened Wrappers
  import opened Prompt

  const InitiatorHeader: string := "X-Initiator"

  datatype Initiator = UserInitiator | AgentInitiator

  /** The header value: `'user'` or `'agent'`. */
  function InitiatorName(i: Initiator): string
  {
    match i
    case UserInitiator => "user"
    case AgentInitiator => "agent"
  }

  /**
   * Who started the turn, from the history: the agent exactly when there is
   * a last message and its role is not `user`; an empty history counts as
   * the user's. Total: every history has an answer.
   */
  function InferInitiator(messages: seq<Message>): (r: Initiator)
    ensures r == AgentInitiator <==> |messages| > 0 && messages[|messages| - 1].role != "user"
    ensures messages == [] ==> r == UserInitiator
  {
    var last := if |messages| > 0 then Some(Last(messages)) else None;
    if last.Some? && last.value.role != "user" then AgentInitiator else UserInitiator
  }

  /**
   * `{ ...headers, 'X-Initiator': initiator }`: every caller header other
   * than `X-Initiator` is kept with its value; `X-Initiator` is added or
   * overwritten with the inferred initiator; nothing else is added.
   */
  function WithInitiator(headers: map<string, string>, messages: seq<Message>): (r: map<string, string>)
    ensures r.Keys == headers.Keys + {InitiatorHeader}
    ensures r[InitiatorHeader] == InitiatorName(InferInitiator(messages))
    ensures forall k :: k in headers && k != InitiatorHeader ==> r[k] == headers[k]
  {
    headers[InitiatorHeader := InitiatorName(InferInitiator(messages))]
  }

  /** The call options object the caller passes; `headers` absent reads as no headers. */
  class CallOptions {
    var messages: seq<Message>
    var headers: map<string, string>

    constructor (messages: seq<Message>, headers: map<string, string>)
      ensures this.messages == messages && this.headers == headers
    {
      this.messages := messages;
      this.headers := headers;
    }
  }

  datatype CallKind = Generate | Stream

  /** A call as the wrapped model received it: the options object and what it held at that moment. */
  datatype Received = Received(kind: CallKind, options: CallOptions, messages: seq<Message>, headers: map<string, string>)

  /** What the wrapped model answered: the kind of call and the number of the request it answers. */
  datatype Reply = Reply(kind: CallKind, request: nat)

  /**
   * The wrapped model, whose behaviour is not part of this model: it keeps
   * its identity fixed and records every request it receives.
   */
  class WrappedModel {
    const modelId: string
    const defaultObjectGenerationMode: Option<string>
    var received: seq<Received>

    constructor (modelId: string, mode: Option<string>)
      ensures this.modelId == modelId && defaultObjectGenerationMode == mode && received == []
    {
      this.modelId := modelId;
      defaultObjectGenerationMode := mode;
      received := [];
    }

    method DoGenerate(options: CallOptions) returns (reply: Reply)
      modifies this
      ensures received == old(received) + [Received(Generate, options, options.messages, options.headers)]
      ensures reply == Reply(Generate, |old(received)|)
    {
      reply := Reply(Generate, |received|);
      received := received + [Received(Generate, options, options.messages, options.headers)];
    }

    method DoStream(options: CallOptions) returns (reply: Reply)
      modifies this
      ensures received == old(received) + [Received(Stream, options, options.messages, options.headers)]
      ensures reply == Reply(Stream, |old(received)|)
    {
      reply := Reply(Stream, |received|);
      received := received + [Received(Stream, options, options.messages, options.headers)];
    }
  }

  class GitHubCopilotModel {
    const baseModel: WrappedModel

    constructor (model: WrappedModel)
      ensures baseModel == model
    {
      baseModel := model;
    }

    /** The wrapped model's id. */
    function ModelId(): (r: string)
      ensures r == baseModel.modelId
    {
      baseModel.modelId
    }

    /** Always `github-copilot`, whatever model is wrapped. */
    function Provider(): (r: string)
      ensures r == "github-copilot"
    {
      "github-copilot"
    }

    /** The wrapped model's default object-generation mode. */
    function DefaultObjectGenerationMode(): (r: Option<string>)
      ensures r == baseModel.defaultObjectGenerationMode
    {
      baseModel.defaultObjectGenerationMode
    }

    /**
     * Sets `options.headers` to the caller's headers with the inferred
     * initiator merged in, then delegates the same options object to the
     * wrapped model's `doGenerate` and returns its reply.
     */
    method DoGenerate(options: CallOptions) returns (reply: Reply)
      modifies options, baseModel
      ensures options.messages == old(options.messages)
      ensures options.headers == WithInitiator(old(options.headers), options.messages)
      ensures options.headers[InitiatorHeader] == InitiatorName(InferInitiator(options.messages))
      ensures baseModel.received == old(baseModel.received) + [Received(Generate, options, options.messages, options.headers)]
      ensures reply == Reply(Generate, |old(baseModel.received)|)
    {
      var initiator := InferInitiator(options.messages);
      options.headers := options.headers[InitiatorHeader := InitiatorName(initiator)];
      reply := baseModel.DoGenerate(options);
    }

    /** As `DoGenerate`, delegating to the wrapped model's `doStream`. */
    method DoStream(options: CallOptions) returns (reply: Reply)
      modifies options, baseModel
      ensures options.messages == old(options.messages)
      ensures options.headers == WithInitiator(old(options.headers), options.messages)
      ensures options.headers[InitiatorHeader] == InitiatorName(InferInitiator(options.messages))
      ensures baseModel.received == old(baseModel.received) + [Received(Stream, options, options.messages, options.headers)]
      ensures reply == Reply(Stream, |old(baseModel.received)|)
    {
      var initiator := InferInitiator(options.messages);
      options.headers := options.headers[InitiatorHeader := InitiatorName(initiator)];
      reply := baseModel.DoStream(options);
    }
  }
}
