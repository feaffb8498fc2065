/** The telemetry link wrapper `MQTTClient`: the session flag it keeps, the
    signals its callbacks emit and the gate on publishing commands. The
    underlying MQTT client library is an oracle: its outcomes arrive as
    parameters (whether `connect` raised, the CONNACK return code, the
    message's topic and payload) and its effects are returned as values. */
module Link {
  import opened Wrappers

  const TopicTemperature: string := "climatizador/temperatura"
  const TopicHumidity: string := "climatizador/umidade"
  const TopicCommand: string := "climatizador/comando"

  /** The signals of `MQTTSignals`; emitting one is modelled as returning it. */
  datatype Signal =
    | Connected
    | Disconnected
    | Error(message: string)
    | TemperatureReceived(celsius: real)
    | HumidityReceived(percent: real)
    | ConnectionStatus(up: bool)
    | DataReceived

  /** A message handed to the library for publication. */
  datatype Publication = Publication(topic: string, payload: string)

  /** A digit character for 0..9. */
  function Digit(d: nat): char
    requires d < 10
  {
    "0123456789"[d]
  }

  /** Decimal digits of a natural number, most significant first. */
  function NatToDecimal(n: nat): (s: string)
    ensures |s| > 0
    ensures forall i :: 0 <= i < |s| ==> '0' <= s[i] <= '9'
    decreases n
  {
    if n < 10 then [Digit(n)] else NatToDecimal(n / 10) + [Digit(n % 10)]
  }

  /** The value of a string of decimal digits. */
  function DecimalValue(s: string): nat
    requires forall i :: 0 <= i < |s| ==> '0' <= s[i] <= '9'
  {
    if s == [] then 0 else DecimalValue(s[..|s| - 1]) * 10 + ((s[|s| - 1] as int) - ('0' as int))
  }

  /** Python's `str` of an integer: an optional minus sign, then the digits. */
  function IntToDecimal(n: int): string {
    if n < 0 then "-" + NatToDecimal(-n) else NatToDecimal(n)
  }

  /** Reading the digits back gives the number: the rendering of a return code
      in an error message identifies the code. */
  lemma {:induction false} DecimalRoundTrip(n: nat)
    ensures DecimalValue(NatToDecimal(n)) == n
    decreases n
  {
    if n >= 10 {
      DecimalRoundTrip(n / 10);
      var s := NatToDecimal(n);
      assert s[..|s| - 1] == NatToDecimal(n / 10);
    }
  }

  /** The value of an optionally signed decimal rendering. */
  function SignedDecimalValue(s: string): int
    requires |s| > 0
    requires forall i :: 1 <= i < |s| ==> '0' <= s[i] <= '9'
    requires s[0] == '-' || '0' <= s[0] <= '9'
  {
    if s[0] == '-' then -(DecimalValue(s[1..]) as int) else DecimalValue(s)
  }

  /** Reading a rendered integer back gives the integer, so different integers
      render differently. */
  lemma IntToDecimalRoundTrip(n: int)
    ensures var s := IntToDecimal(n);
      |s| > 0 && (s[0] == '-' || '0' <= s[0] <= '9') &&
      (forall i :: 1 <= i < |s| ==> '0' <= s[i] <= '9') &&
      SignedDecimalValue(s) == n
  {
    var s := IntToDecimal(n);
    if n < 0 {
      assert s[1..] == NatToDecimal(-n);
      DecimalRoundTrip(-n);
    } else {
      DecimalRoundTrip(n);
    }
  }

  const UnknownCodePrefix: string := "Código desconhecido: "

  /** The human-readable reason for a refused connection. Codes 1 to 5 are the
      refusal codes of section 3.2.2.3 of the OASIS MQTT Version 3.1.1
      standard (unacceptable protocol version, identifier rejected, server
      unavailable, bad user name or password, not authorized); any other code
      is reported by number. */
  function ConnackReason(rc: int): (m: string)
    ensures 1 <= rc <= 5 ==> m == ["Protocolo incorreto", "ID de cliente inválido",
                                   "Servidor indisponível", "Usuário/senha incorretos",
                                   "Não autorizado"][rc - 1]
    ensures !(1 <= rc <= 5) ==> m == UnknownCodePrefix + IntToDecimal(rc)
  {
    if rc == 1 then "Protocolo incorreto"
    else if rc == 2 then "ID de cliente inválido"
    else if rc == 3 then "Servidor indisponível"
    else if rc == 4 then "Usuário/senha incorretos"
    else if rc == 5 then "Não autorizado"
    else UnknownCodePrefix + IntToDecimal(rc)
  }

  /** Two unknown codes give different reasons. */
  lemma UnknownReasonsDiffer(a: int, b: int)
    requires !(1 <= a <= 5) && !(1 <= b <= 5) && a != b
    ensures ConnackReason(a) != ConnackReason(b)
  {
    if ConnackReason(a) == ConnackReason(b) {
      var k := |UnknownCodePrefix|;
      assert ConnackReason(a)[k..] == IntToDecimal(a);
      assert ConnackReason(b)[k..] == IntToDecimal(b);
      IntToDecimalRoundTrip(a);
      IntToDecimalRoundTrip(b);
    }
  }

  /** `_on_message` without the emission: the signals a message produces. A
      value that does not parse produces none, and so does a topic other than
      the two telemetry topics; a value on a telemetry topic produces its
      channel's signal followed by `data_received`. */
  function Route(topic: string, payload: string, parse: string -> Option<real>): (r: seq<Signal>)
    ensures r == [] <==> parse(payload).None? || (topic != TopicTemperature && topic != TopicHumidity)
    ensures r != [] ==> |r| == 2 && r[1] == DataReceived
    ensures r != [] && topic == TopicTemperature ==> r[0] == TemperatureReceived(parse(payload).value)
    ensures r != [] && topic == TopicHumidity ==> r[0] == HumidityReceived(parse(payload).value)
  {
    match parse(payload)
    case None => []
    case Some(value) =>
      if topic == TopicTemperature then [TemperatureReceived(value), DataReceived]
      else if topic == TopicHumidity then [HumidityReceived(value), DataReceived]
      else []
  }

  /** `MQTTClient`: the wrapper's own state is the session flag. */
  class MqttClient {
    var isConnected: bool

    constructor ()
      ensures !isConnected
    {
      isConnected := false;
    }

    /** `connect`: when the library raises (`raised` carries the exception's
        text) the flag is cleared and an error and a "down" status are
        emitted; otherwise the network loop runs and nothing is emitted yet. */
    method Connect(raised: Option<string>) returns (emitted: seq<Signal>)
      modifies this
      ensures raised.Some? ==> !isConnected
      ensures raised.None? ==> isConnected == old(isConnected)
      ensures emitted == if raised.Some? then [Error("Erro de conexão: " + raised.value), ConnectionStatus(false)] else []
    {
      match raised
      case Some(text) =>
        isConnected := false;
        emitted := [Error("Erro de conexão: " + text), ConnectionStatus(false)];
      case None =>
        emitted := [];
    }

    /** `disconnect`: clears the flag; stopping the loop is the library's. */
    method Disconnect()
      modifies this
      ensures !isConnected
    {
      isConnected := false;
    }

    /** `check_connection`: up only when both the flag and the library say so. */
    method CheckConnection(libraryConnected: bool) returns (up: bool)
      ensures up <==> isConnected && libraryConnected
    {
      up := isConnected && libraryConnected;
    }

    /** `publish_command`: the command goes to the command topic exactly when
        the flag is set; otherwise it is dropped, not queued. */
    method PublishCommand(command: string) returns (sent: Option<Publication>)
      ensures sent.Some? <==> isConnected
      ensures sent.Some? ==> sent.value == Publication(TopicCommand, command)
    {
      if isConnected {
        sent := Some(Publication(TopicCommand, command));
      } else {
        sent := None;
      }
    }

    /** `_on_connect`: return code 0 sets the flag, emits "connected" and an
        "up" status and subscribes to both telemetry topics; any other code
        clears the flag and emits the translated refusal and a "down" status. */
    method OnConnect(rc: int) returns (emitted: seq<Signal>, subscribed: seq<string>)
      modifies this
      ensures isConnected <==> rc == 0
      ensures rc == 0 ==> emitted == [Connected, ConnectionStatus(true)]
      ensures rc == 0 ==> subscribed == [TopicTemperature, TopicHumidity]
      ensures rc != 0 ==> emitted == [Error("Falha na conexão: " + ConnackReason(rc)), ConnectionStatus(false)]
      ensures rc != 0 ==> subscribed == []
    {
      if rc == 0 {
        isConnected := true;
        emitted := [Connected, ConnectionStatus(true)];
        subscribed := [TopicTemperature, TopicHumidity];
      } else {
        isConnected := false;
        emitted := [Error("Falha na conexão: " + ConnackReason(rc)), ConnectionStatus(false)];
        subscribed := [];
      }
    }

    /** `_on_disconnect`: whatever the reason code, clears the flag and emits
        "disconnected" and a "down" status. */
    method OnDisconnect(rc: int) returns (emitted: seq<Signal>)
      modifies this
      ensures !isConnected
      ensures emitted == [Disconnected, ConnectionStatus(false)]
    {
      isConnected := false;
      emitted := [Disconnected, ConnectionStatus(false)];
    }

    /** `_on_message`: routes one inbound message; the flag is untouched. */
    method OnMessage(topic: string, payload: string, parse: string -> Option<real>) returns (emitted: seq<Signal>)
      ensures emitted == Route(topic, payload, parse)
      ensures forall i :: 0 <= i < |emitted| ==> !emitted[i].Connected? && !emitted[i].Disconnected? && !emitted[i].Error?
    {
      emitted := Route(topic, payload, parse);
    }
  }
}
