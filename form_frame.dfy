/**
 * The byte layout of the "floodgate:form" plugin-message channel.
 *
 * Request (server -> proxy):  [form-type ordinal][id byte 0][id byte 1][UTF-8 form body ...]
 * Response (proxy -> server): [id byte 0][id byte 1][UTF-8 response ...]
 *
 * Java's byte is signed, so a frame is a sequence of JByte values in -128..127; UTF-8 text is kept
 * as its encoded bytes (encoding and decoding are the identity here).
 */
module FormFrame {
  import opened Wrappers

  /** A Java `byte`: signed, two's complement, eight bits. */
  newtype JByte = x: int | -128 <= x < 128

  /** The form kinds of the form library, in ordinal order. */
  datatype FormType = ModalForm | SimpleForm | CustomForm

  const FormTypeCount: nat := 3

  function Ordinal(t: FormType): (o: nat)
    ensures o < FormTypeCount
  {
    match t
    case ModalForm => 0
    case SimpleForm => 1
    case CustomForm => 2
  }

  /** `FormType.getByOrdinal`: the kind with the given ordinal, or nothing when it is out of range. */
  function FormTypeByOrdinal(o: int): (r: Option<FormType>)
    ensures r.Some? <==> 0 <= o < FormTypeCount
    ensures r.Some? ==> Ordinal(r.value) == o
  {
    if o == 0 then Some(ModalForm)
    else if o == 1 then Some(SimpleForm)
    else if o == 2 then Some(CustomForm)
    else None
  }

  lemma OrdinalRoundTrip(t: FormType)
    ensures FormTypeByOrdinal(Ordinal(t)) == Some(t)
  {
  }

  /** Why a form frame could not be read. Each is an exception the translator does not catch. */
  datatype FrameError =
    | EmptyFrame                   // `data[0]` on an empty array
    | UnknownFormType(ordinal: int) // the explicit NullPointerException for an unknown ordinal
    | TruncatedFrame               // `new String(data, 3, data.length - 3)` with fewer than three bytes

  /** A decoded form request: its kind, its two opaque correlation-id bytes and its body. */
  datatype FormRequest = FormRequest(kind: FormType, id0: JByte, id1: JByte, body: seq<JByte>)

  /** Reads a request frame the way the translator does: the ordinal first, then the body bounds. */
  function DecodeFormRequest(data: seq<JByte>): (r: Result<FormRequest, FrameError>)
    ensures r == Failure(EmptyFrame) <==> |data| == 0
    ensures r.Failure? && r.error.UnknownFormType? <==>
              |data| > 0 && !(0 <= data[0] as int < FormTypeCount)
    ensures r.Failure? && r.error.UnknownFormType? ==> r.error.ordinal == data[0] as int
    ensures r.Success? <==> |data| >= 3 && 0 <= data[0] as int < FormTypeCount
    ensures r.Success? ==> Ordinal(r.value.kind) == data[0] as int
    ensures r.Success? ==> [r.value.id0, r.value.id1] == data[1..3]
    ensures r.Success? ==> r.value.body == data[3..] && |r.value.body| == |data| - 3
  {
    if |data| == 0 then Failure(EmptyFrame)
    else
      match FormTypeByOrdinal(data[0] as int)
      case None => Failure(UnknownFormType(data[0] as int))
      case Some(kind) =>
        if |data| < 3 then Failure(TruncatedFrame)
        else Success(FormRequest(kind, data[1], data[2], data[3..]))
  }

  /** The frame the sender of a request writes; the inverse of DecodeFormRequest. */
  function EncodeFormRequest(req: FormRequest): (data: seq<JByte>)
    ensures |data| == |req.body| + 3
  {
    [Ordinal(req.kind) as JByte, req.id0, req.id1] + req.body
  }

  lemma DecodeEncode(req: FormRequest)
    ensures DecodeFormRequest(EncodeFormRequest(req)) == Success(req)
  {
  }

  lemma EncodeDecode(data: seq<JByte>)
    requires DecodeFormRequest(data).Success?
    ensures EncodeFormRequest(DecodeFormRequest(data).value) == data
  {
  }

  /** The response frame the form's handler sends: the two id bytes, then the response bytes. */
  function ResponseFrame(id0: JByte, id1: JByte, raw: seq<JByte>): (frame: seq<JByte>)
    ensures |frame| == |raw| + 2
    ensures frame[0] == id0 && frame[1] == id1
    ensures frame[2..] == raw
  {
    [id0, id1] + raw
  }

  /** How the receiver splits a response frame into correlation id and response. */
  function SplitResponseFrame(frame: seq<JByte>): (r: Option<(JByte, JByte, seq<JByte>)>)
    ensures r.Some? <==> |frame| >= 2
    ensures r.Some? ==> r.value.0 == frame[0] && r.value.1 == frame[1] && |r.value.2| == |frame| - 2
  {
    if |frame| < 2 then None else Some((frame[0], frame[1], frame[2..]))
  }

  lemma SplitBuild(id0: JByte, id1: JByte, raw: seq<JByte>)
    ensures SplitResponseFrame(ResponseFrame(id0, id1, raw)) == Some((id0, id1, raw))
  {
  }

  lemma BuildSplit(frame: seq<JByte>)
    requires |frame| >= 2
    ensures var (a, b, raw) := SplitResponseFrame(frame).value; ResponseFrame(a, b, raw) == frame
  {
  }

  /**
   * The correlation id of a request is what its response carries: the response to a decoded request
   * starts with the request's bytes 1 and 2, whatever the response text.
   */
  lemma CorrelationIdEchoed(data: seq<JByte>, raw: seq<JByte>)
    requires DecodeFormRequest(data).Success?
    ensures var req := DecodeFormRequest(data).value;
            ResponseFrame(req.id0, req.id1, raw)[..2] == data[1..3]
  {
  }

  /**
   * The handler's frame construction: allocate `raw.length + 2` bytes, write the two id bytes and
   * copy the response in behind them (the `System.arraycopy`).
   */
  method BuildResponseFrame(id0: JByte, id1: JByte, raw: seq<JByte>) returns (frame: seq<JByte>)
    ensures frame == ResponseFrame(id0, id1, raw)
  {
    var finalData := new JByte[|raw| + 2];
    finalData[0] := id0;
    finalData[1] := id1;
    var i := 0;
    while i < |raw|
      invariant 0 <= i <= |raw|
      invariant finalData[0] == id0 && finalData[1] == id1
      invariant forall k :: 0 <= k < i ==> finalData[k + 2] == raw[k]
    {
      finalData[i + 2] := raw[i];
      i := i + 1;
    }
    frame := finalData[..];
    assert frame[2..] == raw;
  }

  /** The response frame for ids 0x01 0x02 and the text "ok" is exactly 0x01 0x02 'o' 'k'. */
  method ResponseExample() returns (frame: seq<JByte>)
    ensures frame == [1, 2, 'o' as int as JByte, 'k' as int as JByte]
  {
    var ok := ['o' as int as JByte, 'k' as int as JByte];
    frame := BuildResponseFrame(1, 2, ok);
  }
}
