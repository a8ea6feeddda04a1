/** Message framing over a byte stream, as in the Base Protocol section of LSP 3.17. */
module ContentLength {
  import opened Text

  newtype Byte = x: int | 0 <= x < 256

  type Bytes = seq<Byte>

  // ----- Decimal numbers -----

  predicate IsDigit(c: char) {
    '0' <= c <= '9'
  }

  function Decimal(n: nat): (s: string)
    ensures s != "" && forall i :: 0 <= i < |s| ==> IsDigit(s[i])
  {
    var last := ['0' + (n % 10) as char];
    if n < 10 then last else Decimal(n / 10) + last
  }

  /** `Number.parseInt(digits, 10)`, without the rounding of very large numbers. */
  function Value(digits: string): nat
    requires forall i :: 0 <= i < |digits| ==> IsDigit(digits[i])
  {
    if digits == "" then 0
    else
      assert IsDigit(digits[|digits| - 1]);
      10 * Value(digits[..|digits| - 1]) + (digits[|digits| - 1] as int - '0' as int)
  }

  lemma {:induction false} DecimalRoundTrip(n: nat)
    ensures Value(Decimal(n)) == n
  {
    if n >= 10 {
      var last := ['0' + (n % 10) as char];
      assert (Decimal(n / 10) + last)[..|Decimal(n / 10)|] == Decimal(n / 10);
      DecimalRoundTrip(n / 10);
    }
  }

  // ----- The header -----

  const FIELD := "content-length:"

  function DigitsAt(s: string, i: nat): (n: nat)
    requires i <= |s|
    ensures i + n <= |s|
    ensures forall k :: i <= k < i + n ==> IsDigit(s[k])
    ensures i + n < |s| ==> !IsDigit(s[i + n])
    decreases |s| - i
  {
    if i == |s| || !IsDigit(s[i]) then 0 else 1 + DigitsAt(s, i + 1)
  }

  function SpacesAt(s: string, i: nat): (n: nat)
    requires i <= |s|
    ensures i + n <= |s|
    ensures forall k :: i <= k < i + n ==> IsSpace(s[k])
    ensures i + n < |s| ==> !IsSpace(s[i + n])
    decreases |s| - i
  {
    if i == |s| || !IsSpace(s[i]) then 0 else 1 + SpacesAt(s, i + 1)
  }

  /** The length read at position i of the header, if the field starts a line there and ends with its digits. */
  function LengthAt(headers: string, i: nat): Option<nat>
    requires i <= |headers|
  {
    if i > 0 && !IsLineTerminator(headers[i - 1]) then None
    else if i + |FIELD| > |headers| || Lower(headers[i..i + |FIELD|]) != FIELD then None
    else
      var start := i + |FIELD| + SpacesAt(headers, i + |FIELD|);
      var stop := start + DigitsAt(headers, start);
      if start == stop || (stop < |headers| && !IsLineTerminator(headers[stop])) then None
      else Some(Value(headers[start..stop]))
  }

  /** `/^Content-Length:\s*(\d+)$/im`: the leftmost match at or after position i. */
  function LengthFrom(headers: string, i: nat): Option<nat>
    requires i <= |headers|
    decreases |headers| - i
  {
    var here := LengthAt(headers, i);
    if here.Some? || i == |headers| then here else LengthFrom(headers, i + 1)
  }

  function ParseContentLength(headers: string): Option<nat> {
    LengthFrom(headers, 0)
  }

  function HeaderOf(n: nat): (headers: string)
    ensures forall i :: 0 <= i < |headers| ==> headers[i] < '\U{80}' && headers[i] != '\r'
  {
    "Content-Length: " + Decimal(n)
  }

  /** The leftmost place where the field can be read decides. */
  lemma {:induction false} LeftmostDecides(headers: string, i: nat)
    requires i <= |headers|
    ensures var r := LengthFrom(headers, i);
            && (r.None? ==> forall k :: i <= k <= |headers| ==> LengthAt(headers, k).None?)
            && (r.Some? ==> exists k :: i <= k <= |headers| && LengthAt(headers, k) == r && forall j :: i <= j < k ==>
                 LengthAt(headers, j).None?)
    decreases |headers| - i
  {
    hide LengthAt;
    if LengthAt(headers, i).None? && i < |headers| {
      LeftmostDecides(headers, i + 1);
    }
  }

  /** The reader understands the header that the writer prints, whatever further header lines follow it. */
  lemma HeaderRoundTrip(n: nat, more: string)
    requires more != "" ==> IsLineTerminator(more[0])
    ensures ParseContentLength(HeaderOf(n) + more) == Some(n)
  {
    var headers, digits := HeaderOf(n) + more, Decimal(n);
    var at := |FIELD|;
    assert headers == "Content-Length:" + " " + digits + more;
    assert Lower(headers[0..at]) == FIELD by { assert headers[0..at] == "Content-Length:"; }
    PlainLength(headers, digits, more);
    DecimalRoundTrip(n);
  }

  lemma OneSpace(s: string, i: nat)
    requires i + 1 < |s| && s[i] == ' ' && IsDigit(s[i + 1])
    ensures SpacesAt(s, i) == 1
  {
  }

  lemma DigitRun(s: string, i: nat, n: nat)
    requires i + n <= |s|
    requires forall k :: i <= k < i + n ==> IsDigit(s[k])
    requires i + n < |s| ==> IsLineTerminator(s[i + n])
    ensures DigitsAt(s, i) == n
  {
    hide DigitsAt;
  }

  lemma PlainLength(headers: string, digits: string, more: string)
    requires |headers| == |FIELD| + 1 + |digits| + |more| && Lower(headers[0..|FIELD|]) == FIELD
    requires headers[|FIELD|] == ' ' && headers[|FIELD| + 1..] == digits + more
    requires digits != "" && forall i :: 0 <= i < |digits| ==> IsDigit(digits[i])
    requires more != "" ==> IsLineTerminator(more[0])
    ensures ParseContentLength(headers) == Some(Value(digits))
  {
    hide Value, Lower, IsSpace, IsLineTerminator;
    var at := |FIELD|;
    forall k | at + 1 <= k < at + 1 + |digits| ensures IsDigit(headers[k]) {
      assert headers[k] == headers[at + 1..][k - (at + 1)] == digits[k - (at + 1)];
    }
    assert more != "" ==> headers[at + 1 + |digits|] == (digits + more)[|digits|] == more[0];
    OneSpace(headers, at);
    DigitRun(headers, at + 1, |digits|);
    FieldThenDigits(headers, digits);
  }

  lemma FieldThenDigits(headers: string, digits: string)
    requires |headers| >= |FIELD| + 1 + |digits| && Lower(headers[0..|FIELD|]) == FIELD
    requires SpacesAt(headers, |FIELD|) == 1 && DigitsAt(headers, |FIELD| + 1) == |digits| > 0
    requires headers[|FIELD| + 1..][..|digits|] == digits
    requires forall i :: 0 <= i < |digits| ==> IsDigit(digits[i])
    requires |headers| > |FIELD| + 1 + |digits| ==> IsLineTerminator(headers[|FIELD| + 1 + |digits|])
    ensures ParseContentLength(headers) == Some(Value(digits))
  {
    hide Value, Lower, IsLineTerminator, SpacesAt, DigitsAt, IsDigit;
    assert headers[|FIELD| + 1..|FIELD| + 1 + |digits|] == digits;
  }

  // ----- Frames -----

  predicate IsAscii(s: string) {
    forall i :: 0 <= i < |s| ==> s[i] < '\U{80}'
  }

  function Encode(s: string): Bytes
    requires IsAscii(s)
  {
    seq(|s|, i requires 0 <= i < |s| => s[i] as int as Byte)
  }

  /** Headers are decoded as UTF-8; all that matters here is that ASCII text decodes to itself. */
  ghost predicate DecodesAscii(decode: Bytes -> string) {
    forall s: string :: IsAscii(s) ==> decode(Encode(s)) == s
  }

  const SEPARATOR: Bytes := [13, 10, 13, 10]

  predicate SeparatorAt(buffer: Bytes, i: nat) {
    i + 4 <= |buffer| && buffer[i] == 13 && buffer[i + 1] == 10 && buffer[i + 2] == 13 && buffer[i + 3] == 10
  }

  /** `buffer.indexOf("\r\n\r\n", i)`. */
  function IndexFrom(buffer: Bytes, i: nat): (r: Option<nat>)
    ensures r.Some? ==> r.value + 4 <= |buffer|
    ensures r.None? ==> forall k :: i <= k ==> !SeparatorAt(buffer, k)
    ensures r.Some? ==> i <= r.value && SeparatorAt(buffer, r.value) && forall k :: i <= k < r.value ==>
              !SeparatorAt(buffer, k)
    decreases |buffer| - i
  {
    if i + 4 > |buffer| then None
    else if SeparatorAt(buffer, i) then Some(i)
    else IndexFrom(buffer, i + 1)
  }

  /** What `send` writes for one message. */
  function Frame(body: Bytes): Bytes {
    Encode(HeaderOf(|body|)) + SEPARATOR + body
  }

  function Wire(messages: seq<Bytes>): Bytes {
    if messages == [] then [] else Frame(messages[0]) + Wire(messages[1..])
  }

  // ----- Reading -----

  /** A reader waits for more bytes, or has thrown: on a header without a length, or on a body that is not JSON. */
  datatype Reader = Waiting(delivered: seq<Bytes>, buffer: Bytes) | Broken(delivered: seq<Bytes>)

  /** `drain`: take complete messages off the front of the buffer. */
  function Drain(decode: Bytes -> string, isJson: Bytes -> bool, delivered: seq<Bytes>, buffer: Bytes): Reader
    decreases |buffer|
  {
    var separator := IndexFrom(buffer, 0);
    if separator.None? then Waiting(delivered, buffer)
    else
      var length := ParseContentLength(decode(buffer[..separator.value]));
      if length.None? then Broken(delivered)
      else
        var start := separator.value + 4;
        if |buffer| < start + length.value then Waiting(delivered, buffer)
        else
          var payload := buffer[start..start + length.value];
          if !isJson(payload) then Broken(delivered)
          else Drain(decode, isJson, delivered + [payload], buffer[start + length.value..])
  }

  function Feed(decode: Bytes -> string, isJson: Bytes -> bool, reader: Reader, piece: Bytes): Reader {
    match reader
    case Broken(_) => reader
    case Waiting(delivered, buffer) => Drain(decode, isJson, delivered, buffer + piece)
  }

  function FeedAll(decode: Bytes -> string, isJson: Bytes -> bool, reader: Reader, pieces: seq<Bytes>): Reader
    decreases |pieces|
  {
    if pieces == [] then reader
    else FeedAll(decode, isJson, Feed(decode, isJson, reader, pieces[0]), pieces[1..])
  }

  function Concat(pieces: seq<Bytes>): Bytes {
    if pieces == [] then [] else pieces[0] + Concat(pieces[1..])
  }

  lemma IndexStable(a: Bytes, b: Bytes)
    requires IndexFrom(a, 0).Some?
    ensures IndexFrom(a + b, 0) == IndexFrom(a, 0)
  {
    var k := IndexFrom(a, 0).value;
    assert SeparatorAt(a + b, k);
    forall i | 0 <= i < k ensures !SeparatorAt(a + b, i) {
      assert !SeparatorAt(a, i);
    }
  }

  /** Bytes that arrive later only continue what the earlier ones began, whatever the bytes are. */
  lemma {:induction false} DrainContinues(decode: Bytes -> string, isJson: Bytes -> bool,
                                          delivered: seq<Bytes>, a: Bytes, b: Bytes)
    ensures Drain(decode, isJson, delivered, a + b) == Feed(decode, isJson, Drain(decode, isJson, delivered, a), b)
    decreases |a|
  {
    hide ParseContentLength, IndexFrom, SeparatorAt;
    var separator := IndexFrom(a, 0);
    if separator.Some? {
      IndexStable(a, b);
      assert (a + b)[..separator.value] == a[..separator.value];
      var length := ParseContentLength(decode(a[..separator.value]));
      if length.Some? {
        var start, stop := separator.value + 4, separator.value + 4 + length.value;
        if stop <= |a| && isJson(a[start..stop]) {
          assert (a + b)[start..stop] == a[start..stop];
          assert (a + b)[stop..] == a[stop..] + b;
          DrainContinues(decode, isJson, delivered + [a[start..stop]], a[stop..], b);
        } else if stop <= |a| {
          assert (a + b)[start..stop] == a[start..stop];
        }
      }
    }
  }

  /** A drained buffer holds no complete message. */
  lemma {:induction false} DrainIsDone(decode: Bytes -> string, isJson: Bytes -> bool, delivered: seq<Bytes>,
                                       buffer: Bytes)
    ensures var r := Drain(decode, isJson, delivered, buffer);
            r.Waiting? ==> Drain(decode, isJson, r.delivered, r.buffer) == r
    decreases |buffer|
  {
    hide ParseContentLength, IndexFrom, SeparatorAt;
    var separator := IndexFrom(buffer, 0);
    if separator.Some? {
      var length := ParseContentLength(decode(buffer[..separator.value]));
      if length.Some? {
        var start, stop := separator.value + 4, separator.value + 4 + length.value;
        if stop <= |buffer| && isJson(buffer[start..stop]) {
          DrainIsDone(decode, isJson, delivered + [buffer[start..stop]], buffer[stop..]);
        }
      }
    }
  }

  /** How a stream is cut into pieces makes no difference, for any stream at all. */
  lemma {:induction false} FragmentationIsInvisible(decode: Bytes -> string, isJson: Bytes -> bool,
                                                    delivered: seq<Bytes>, buffer: Bytes, pieces: seq<Bytes>)
    ensures FeedAll(decode, isJson, Drain(decode, isJson, delivered, buffer), pieces) ==
            Drain(decode, isJson, delivered, buffer + Concat(pieces))
    decreases |pieces|
  {
    hide Drain;
    if pieces == [] {
      assert buffer + Concat(pieces) == buffer;
    } else {
      DrainContinues(decode, isJson, delivered, buffer, pieces[0]);
      assert buffer + Concat(pieces) == (buffer + pieces[0]) + Concat(pieces[1..]);
      FragmentationIsInvisible(decode, isJson, delivered, buffer + pieces[0], pieces[1..]);
    }
  }

  lemma FirstSeparator(header: Bytes, body: Bytes, buffer: Bytes)
    requires 13 !in header
    requires buffer <= header + SEPARATOR + body
    ensures var n := |header|;
            && (|buffer| >= n + 4 <==> IndexFrom(buffer, 0).Some?)
            && (|buffer| >= n + 4 ==> IndexFrom(buffer, 0) == Some(n) && buffer[..n] == header)
  {
    var n := |header|;
    forall k | 0 <= k < n ensures !SeparatorAt(buffer, k) {
      assert k < |buffer| ==> buffer[k] == header[k];
    }
    if |buffer| >= n + 4 {
      assert SeparatorAt(buffer, n);
    }
  }

  lemma SeparatorOfFrame(body: Bytes, buffer: Bytes)
    requires buffer <= Frame(body)
    ensures var n := |HeaderOf(|body|)|;
            && (|buffer| >= n + 4 <==> IndexFrom(buffer, 0).Some?)
            && (|buffer| >= n + 4 ==> IndexFrom(buffer, 0) == Some(n) && buffer[..n] == Encode(HeaderOf(|body|)))
  {
    hide HeaderOf, IndexFrom;
    FirstSeparator(Encode(HeaderOf(|body|)), body, buffer);
  }

  lemma FrameIsRead(decode: Bytes -> string, isJson: Bytes -> bool, delivered: seq<Bytes>, body: Bytes, rest: Bytes)
    requires DecodesAscii(decode) && isJson(body)
    ensures Drain(decode, isJson, delivered, Frame(body) + rest) == Drain(decode, isJson, delivered + [body], rest)
  {
    var n := |HeaderOf(|body|)|;
    var buffer := Frame(body) + rest;
    SeparatorOfFrame(body, Frame(body));
    IndexStable(Frame(body), rest);
    assert buffer[..n] == Encode(HeaderOf(|body|));
    HeaderRoundTrip(|body|, "");
    assert HeaderOf(|body|) + "" == HeaderOf(|body|);
    assert buffer[n + 4..n + 4 + |body|] == body;
    assert buffer[n + 4 + |body|..] == rest;
  }

  lemma EmptyReader(decode: Bytes -> string, isJson: Bytes -> bool, delivered: seq<Bytes>)
    ensures Drain(decode, isJson, delivered, []) == Waiting(delivered, [])
  {
    assert IndexFrom([], 0) == None;
  }

  lemma {:induction false} WireIsRead(decode: Bytes -> string, isJson: Bytes -> bool, delivered: seq<Bytes>,
                                      messages: seq<Bytes>)
    requires DecodesAscii(decode) && forall m :: m in messages ==> isJson(m)
    ensures Drain(decode, isJson, delivered, Wire(messages)) == Waiting(delivered + messages, [])
    decreases |messages|
  {
    hide Drain, Frame;
    if messages == [] {
      EmptyReader(decode, isJson, delivered);
      assert delivered + messages == delivered;
    } else {
      assert isJson(messages[0]);
      FrameIsRead(decode, isJson, delivered, messages[0], Wire(messages[1..]));
      WireIsRead(decode, isJson, delivered + [messages[0]], messages[1..]);
      assert delivered + messages == delivered + [messages[0]] + messages[1..];
    }
  }

  /** For every list of messages and every way of cutting the stream: exactly those messages are delivered,
      in order, and nothing is left over. */
  lemma FramingRoundTrip(decode: Bytes -> string, isJson: Bytes -> bool, messages: seq<Bytes>, pieces: seq<Bytes>)
    requires DecodesAscii(decode) && forall m :: m in messages ==> isJson(m)
    requires Concat(pieces) == Wire(messages)
    ensures FeedAll(decode, isJson, Waiting([], []), pieces) == Waiting(messages, [])
  {
    hide Drain, FeedAll, Wire;
    EmptyReader(decode, isJson, []);
    FragmentationIsInvisible(decode, isJson, [], [], pieces);
    assert [] + Wire(messages) == Wire(messages);
    WireIsRead(decode, isJson, [], messages);
    assert [] + messages == messages;
  }

  lemma PartialFrameWaits(decode: Bytes -> string, isJson: Bytes -> bool, delivered: seq<Bytes>, body: Bytes,
                          buffer: Bytes)
    requires DecodesAscii(decode)
    requires buffer <= Frame(body) && |buffer| < |Frame(body)|
    ensures Drain(decode, isJson, delivered, buffer) == Waiting(delivered, buffer)
  {
    SeparatorOfFrame(body, buffer);
    HeaderRoundTrip(|body|, "");
    assert HeaderOf(|body|) + "" == HeaderOf(|body|);
  }

  /** Any first part of the stream is some whole messages and a part of the next. */
  lemma {:induction false} PrefixIsRead(decode: Bytes -> string, isJson: Bytes -> bool,
                                        delivered: seq<Bytes>, messages: seq<Bytes>, buffer: Bytes)
    returns (k: nat)
    requires DecodesAscii(decode) && forall m :: m in messages ==> isJson(m)
    requires buffer <= Wire(messages)
    ensures k <= |messages|
    ensures |Wire(messages[..k])| <= |buffer|
    ensures Drain(decode, isJson, delivered, buffer) ==
              Waiting(delivered + messages[..k], buffer[|Wire(messages[..k])|..])
    ensures Wire(messages[..k]) <= buffer
    decreases |messages|
  {
    hide Drain, Frame;
    if messages == [] {
      k := 0;
      EmptyReader(decode, isJson, delivered);
    } else {
      var frame := Frame(messages[0]);
      if |buffer| < |frame| {
        k := 0;
        assert buffer <= frame;
        PartialFrameWaits(decode, isJson, delivered, messages[0], buffer);
      } else {
        var rest := buffer[|frame|..];
        assert buffer == frame + rest;
        assert isJson(messages[0]);
        FrameIsRead(decode, isJson, delivered, messages[0], rest);
        var j := PrefixIsRead(decode, isJson, delivered + [messages[0]], messages[1..], rest);
        k := j + 1;
        assert messages[..k] == [messages[0]] + messages[1..][..j];
        assert messages[..k][1..] == messages[1..][..j];
        assert delivered + messages[..k] == delivered + [messages[0]] + messages[1..][..j];
      }
    }
  }

  /** At every moment, after any first part of the stream in any pieces, the reader has not failed, what it has
      delivered is a prefix of what was sent, and the buffer holds exactly the bytes that follow. */
  lemma AlwaysAPrefix(decode: Bytes -> string, isJson: Bytes -> bool, messages: seq<Bytes>, arrived: seq<Bytes>)
    requires DecodesAscii(decode) && forall m :: m in messages ==> isJson(m)
    requires Concat(arrived) <= Wire(messages)
    ensures var r := FeedAll(decode, isJson, Waiting([], []), arrived);
            r.Waiting? && r.delivered <= messages && Wire(r.delivered) + r.buffer == Concat(arrived)
  {
    hide Drain, FeedAll, Wire, Concat;
    EmptyReader(decode, isJson, []);
    FragmentationIsInvisible(decode, isJson, [], [], arrived);
    assert [] + Concat(arrived) == Concat(arrived);
    var k := PrefixIsRead(decode, isJson, [], messages, Concat(arrived));
    assert [] + messages[..k] == messages[..k];
  }

  // ----- The transport -----

  class ContentLengthTransport {
    const decode: Bytes -> string
    const isJson: Bytes -> bool
    var buffer: Bytes
    var delivered: seq<Bytes>
    var broken: bool
    var output: Bytes

    constructor (decode: Bytes -> string, isJson: Bytes -> bool)
      ensures this.decode == decode && this.isJson == isJson
      ensures State() == Waiting([], []) && output == []
    {
      this.decode, this.isJson := decode, isJson;
      buffer, delivered, broken, output := [], [], false, [];
    }

    function State(): Reader
      reads this
    {
      if broken then Broken(delivered) else Waiting(delivered, buffer)
    }

    method Send(body: Bytes)
      modifies this`output
      ensures output == old(output) + Frame(body)
    {
      var header := Encode(HeaderOf(|body|)) + SEPARATOR;
      output := output + (header + body);
    }

    method OnData(chunk: Bytes)
      requires !broken
      modifies this`buffer, this`delivered, this`broken
      ensures State() == Feed(decode, isJson, old(State()), chunk)
    {
      buffer := buffer + chunk;
      DrainBuffer();
    }

    method DrainBuffer()
      requires !broken
      modifies this`buffer, this`delivered, this`broken
      ensures State() == Drain(decode, isJson, old(delivered), old(buffer))
    {
      hide ParseContentLength, IndexFrom, SeparatorAt;
      while true
        invariant !broken
        invariant Drain(decode, isJson, delivered, buffer) == Drain(decode, isJson, old(delivered), old(buffer))
        decreases |buffer|
      {
        var separator := IndexFrom(buffer, 0);
        if separator.None? {
          return;
        }
        var length := ParseContentLength(decode(buffer[..separator.value]));
        if length.None? {
          broken := true;
          return;
        }
        var totalLength := separator.value + 4 + length.value;
        if |buffer| < totalLength {
          return;
        }
        var payload := buffer[separator.value + 4..totalLength];
        buffer := buffer[totalLength..];
        if !isJson(payload) {
          broken := true;
          return;
        }
        delivered := delivered + [payload];
      }
    }
  }
}
