/**
 * The translator for server plugin messages: the settings merge on "geyser:settings" and the form
 * bridge on "floodgate:form", run against one session.
 */
module PluginMessageTranslator {
  import opened Wrappers
  import opened FormFrame
  import opened Settings

  const SettingsChannel := "geyser:settings"
  const FormChannel := "floodgate:form"

  datatype AuthType = Offline | Online | Floodgate

  /** What the translator reads from the process-wide connector and its configuration. */
  datatype Connector = Connector(disableBedrockScaffolding: bool, defaultAuthType: AuthType)

  /** A plugin message in either direction: its channel name and its payload. */
  datatype PluginMessage = PluginMessage(channel: string, data: seq<JByte>)

  /** What the JSON reader makes of a payload; `ParseError` is the `IOException` the translator catches. */
  datatype ParseResult = Parsed(doc: Json) | ParseError

  /**
   * A form handed to the client. Besides its kind and body it keeps what the response handler
   * captured: the channel the request came on and the two correlation-id bytes.
   */
  datatype Form = Form(kind: FormType, body: seq<JByte>, channel: string, id0: JByte, id1: JByte)

  /** An exception that leaves `translate`. */
  datatype Fault = SettingsFault(settings: SettingsError) | FrameFault(frame: FrameError)

  datatype Status = Done | Failed(fault: Fault)

  /** The settings part of `translate`: the flag to store (None: none), or the exception it raises. */
  function SettingsOutcome(packet: PluginMessage, parse: seq<JByte> -> ParseResult, local: bool)
    : (r: Result<Option<bool>, SettingsError>)
    ensures packet.channel != SettingsChannel ==> r == Success(None)
    ensures parse(packet.data).ParseError? ==> r == Success(None)
    ensures r.Success? && r.value.Some? <==>
              packet.channel == SettingsChannel && parse(packet.data).Parsed? &&
              CarriesScaffolding(parse(packet.data).doc)
    ensures r.Success? && r.value.Some? ==> r.value.value == (Incoming(parse(packet.data).doc) || local)
    ensures r.Failure? <==>
              packet.channel == SettingsChannel && parse(packet.data).Parsed? &&
              MergeSettings(parse(packet.data).doc, local).Failure?
  {
    if packet.channel != SettingsChannel then Success(None)
    else
      match parse(packet.data)
      case ParseError => Success(None)
      case Parsed(doc) => MergeSettings(doc, local)
  }

  /** The form a decoded request becomes, with its handler's captured state. */
  function FormFor(req: FormRequest, channel: string): (form: Form)
    ensures form.kind == req.kind && form.body == req.body
    ensures form.id0 == req.id0 && form.id1 == req.id1
    ensures form.channel == channel
  {
    Form(req.kind, req.body, channel, req.id0, req.id1)
  }

  /** The form part of `translate`: the form to present (None: none), or the exception it raises. */
  function FormOutcome(connector: Connector, packet: PluginMessage): (r: Result<Option<Form>, FrameError>)
    ensures r != Success(None) ==>
              connector.defaultAuthType == Floodgate && packet.channel == FormChannel
    ensures r.Success? && r.value.Some? ==>
              DecodeFormRequest(packet.data).Success? &&
              r.value.value == FormFor(DecodeFormRequest(packet.data).value, packet.channel)
    ensures r.Failure? <==>
              connector.defaultAuthType == Floodgate && packet.channel == FormChannel &&
              DecodeFormRequest(packet.data).Failure?
    ensures connector.defaultAuthType == Floodgate && packet.channel == FormChannel &&
            DecodeFormRequest(packet.data).Success? ==>
              r == Success(Some(FormFor(DecodeFormRequest(packet.data).value, packet.channel)))
  {
    if connector.defaultAuthType != Floodgate || packet.channel != FormChannel then Success(None)
    else
      match DecodeFormRequest(packet.data)
      case Failure(e) => Failure(e)
      case Success(req) => Success(Some(FormFor(req, packet.channel)))
  }

  /** A frame whose first byte is no form-type ordinal fails before any form is built. */
  lemma UnknownOrdinalPresentsNothing(connector: Connector, packet: PluginMessage)
    requires connector.defaultAuthType == Floodgate && packet.channel == FormChannel
    requires |packet.data| > 0 && FormTypeByOrdinal(packet.data[0] as int).None?
    ensures FormOutcome(connector, packet) == Failure(UnknownFormType(packet.data[0] as int))
  {
  }

  /** Exactly one of the two parts can act on a message: the channels differ. */
  lemma ChannelsExclusive(connector: Connector, packet: PluginMessage, parse: seq<JByte> -> ParseResult, local: bool)
    ensures SettingsOutcome(packet, parse, local) == Success(None) || FormOutcome(connector, packet) == Success(None)
  {
  }

  /** Builds the response a form's handler sends: same channel, the id bytes, then the response. */
  method ResponseFor(form: Form, response: seq<JByte>) returns (msg: PluginMessage)
    ensures msg.channel == form.channel
    ensures msg.data == ResponseFrame(form.id0, form.id1, response)
  {
    var frame := BuildResponseFrame(form.id0, form.id1, response);
    msg := PluginMessage(form.channel, frame);
  }

  /** A client connection: its world-cache flag, the plugin messages sent downstream and the forms shown. */
  class Session {
    const connector: Connector
    var disableBedrockScaffolding: bool
    var outbox: seq<PluginMessage>
    var forms: seq<Form>

    constructor (connector: Connector, disableBedrockScaffolding: bool)
      ensures this.connector == connector
      ensures this.disableBedrockScaffolding == disableBedrockScaffolding
      ensures outbox == [] && forms == []
    {
      this.connector := connector;
      this.disableBedrockScaffolding := disableBedrockScaffolding;
      outbox := [];
      forms := [];
    }

    /**
     * `translate`: the settings part first (a caught parse error does nothing, a missing node aborts),
     * then, only under Floodgate authentication, the form part (a bad frame aborts, a good one is
     * presented). It never sends anything itself; sends come from the forms' handlers.
     */
    method Translate(packet: PluginMessage, parse: seq<JByte> -> ParseResult) returns (status: Status)
      modifies this
      ensures outbox == old(outbox)
      ensures SettingsOutcome(packet, parse, connector.disableBedrockScaffolding).Failure? ==>
                && status == Failed(SettingsFault(SettingsOutcome(packet, parse, connector.disableBedrockScaffolding).error))
                && disableBedrockScaffolding == old(disableBedrockScaffolding)
                && forms == old(forms)
      ensures SettingsOutcome(packet, parse, connector.disableBedrockScaffolding).Success? ==>
                disableBedrockScaffolding ==
                  SettingsOutcome(packet, parse, connector.disableBedrockScaffolding).value.GetOr(old(disableBedrockScaffolding))
      ensures SettingsOutcome(packet, parse, connector.disableBedrockScaffolding).Success? &&
              FormOutcome(connector, packet).Failure? ==>
                status == Failed(FrameFault(FormOutcome(connector, packet).error)) && forms == old(forms)
      ensures SettingsOutcome(packet, parse, connector.disableBedrockScaffolding).Success? &&
              FormOutcome(connector, packet).Success? ==>
                && status == Done
                && forms == old(forms) + FormOutcome(connector, packet).value.ToSeq()
    {
      var channel := packet.channel;
      if channel == SettingsChannel {
        match parse(packet.data)
        case ParseError =>
        case Parsed(data) =>
          var merged := MergeSettings(data, connector.disableBedrockScaffolding);
          if merged.Failure? {
            return Failed(SettingsFault(merged.error));
          }
          if merged.value.Some? {
            disableBedrockScaffolding := merged.value.value;
          }
      }

      if connector.defaultAuthType != Floodgate {
        return Done;
      }

      if channel == FormChannel {
        var decoded := DecodeFormRequest(packet.data);
        if decoded.Failure? {
          return Failed(FrameFault(decoded.error));
        }
        var form := FormFor(decoded.value, channel);
        forms := forms + [form];
      }
      return Done;
    }

    /** A form's response handler: sends the response frame on the form's channel, on every call. */
    method Respond(form: Form, response: seq<JByte>)
      modifies this
      ensures outbox == old(outbox) + [PluginMessage(form.channel, ResponseFrame(form.id0, form.id1, response))]
      ensures disableBedrockScaffolding == old(disableBedrockScaffolding) && forms == old(forms)
    {
      var msg := ResponseFor(form, response);
      outbox := outbox + [msg];
    }
  }

  /** A settings message applied to a fresh session: the flag ends as `incoming || local`, whatever it held. */
  method ApplySettingsDocument(local: bool, incoming: bool, cached: bool) returns (status: Status, flag: bool)
    ensures status == Done
    ensures flag == (incoming || local)
  {
    var session := new Session(Connector(local, Offline), cached);
    var doc := Document(true, incoming);
    status := session.Translate(PluginMessage(SettingsChannel, []), _ => Parsed(doc));
    flag := session.disableBedrockScaffolding;
  }

  /**
   * A form request received under Floodgate authentication and answered once: the single send goes out
   * on the form channel and echoes the request's id bytes ahead of the response. A bad frame is
   * presented to nobody and answered by nothing.
   */
  method AnswerFormRequest(data: seq<JByte>, response: seq<JByte>) returns (status: Status, sent: seq<PluginMessage>)
    ensures DecodeFormRequest(data).Success? ==>
              && status == Done && |sent| == 1
              && sent[0].channel == FormChannel
              && |sent[0].data| == |response| + 2
              && sent[0].data[..2] == data[1..3]
              && sent[0].data[2..] == response
    ensures DecodeFormRequest(data).Failure? ==>
              status == Failed(FrameFault(DecodeFormRequest(data).error)) && sent == []
  {
    var session := new Session(Connector(false, Floodgate), false);
    status := session.Translate(PluginMessage(FormChannel, data), _ => ParseError);
    sent := [];
    if status == Done {
      var form := session.forms[0];
      session.Respond(form, response);
      sent := session.outbox;
    }
  }

  /** The handler is not one-shot: answering the same form twice sends the same frame twice. */
  method AnswerTwice(form: Form, response: seq<JByte>) returns (sent: seq<PluginMessage>)
    ensures |sent| == 2 && sent[0] == sent[1]
    ensures sent[0].channel == form.channel && |sent[0].data| == |response| + 2
    ensures sent[0].data[..2] == [form.id0, form.id1]
  {
    var session := new Session(Connector(false, Floodgate), false);
    session.Respond(form, response);
    session.Respond(form, response);
    sent := session.outbox;
  }
}
