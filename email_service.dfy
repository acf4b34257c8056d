// The OTP e-mail sender's pure parts: masking secrets for the logs and deriving the SMTP
// transport settings from the environment, which must name a host, a user and a password.

module EmailService {
  import opened JsCommon
  import opened JsText

  predicate Truthy(v: Option<string>)
  {
    v.Some? && v.value != ""
  }

  /** `mask`: nothing for a falsy value, stars for a short one, the two ends around three stars otherwise. */
  function Mask(value: Option<string>): (r: string)
    ensures !Truthy(value) ==> r == ""
    ensures Truthy(value) && |value.value| <= 4 ==> r == Repeat('*', |value.value|)
    ensures Truthy(value) && |value.value| > 4 ==>
              |r| == 7 && r[..2] == value.value[..2] && r[2..5] == "***" && r[5..] == value.value[|value.value| - 2..]
  {
    if !Truthy(value) then ""
    else
      var v := value.value;
      if |v| <= 4 then Repeat('*', |v|) else v[..2] + "***" + v[|v| - 2..]
  }

  /** A masked secret never shows more than four of its characters. */
  lemma MaskHidesMiddle(v: string)
    requires |v| > 4
    ensures var r := Mask(Some(v));
      forall k :: 2 <= k < 5 ==> r[k] == '*'
  {
  }

  /** The SMTP variables of the environment; `None` for an unset one. */
  datatype Env = Env(host: Option<string>, port: Option<string>, user: Option<string>, pass: Option<string>,
                     from: Option<string>)

  datatype Transport = Transport(host: string, port: real, secure: bool, user: string, pass: string, from: string)

  const NotConfigured := "SMTP env not configured: require SMTP_HOST, SMTP_USER, SMTP_PASS"

  const DefaultPort: real := 587.0

  /**
   * The transport `sendOtpEmail` creates, or the configuration error it throws first. The
   * port is `Number(SMTP_PORT)` (`toNumber`) when set and 587 otherwise; the connection is
   * secure exactly on port 465; the sender is SMTP_FROM, falling back to the user.
   */
  function TransportFor(env: Env, toNumber: string -> real): (r: Result<Transport, string>)
    ensures r.Err? <==> !Truthy(env.host) || !Truthy(env.user) || !Truthy(env.pass)
    ensures r.Err? ==> r.error == NotConfigured
    ensures r.Ok? ==> r.value.host == env.host.value && r.value.user == env.user.value &&
                      r.value.pass == env.pass.value
    ensures r.Ok? ==> r.value.port == (if Truthy(env.port) then toNumber(env.port.value) else DefaultPort)
    ensures r.Ok? ==> (r.value.secure <==> r.value.port == 465.0)
    ensures r.Ok? ==> r.value.from == (if Truthy(env.from) then env.from.value else env.user.value)
  {
    if !Truthy(env.host) || !Truthy(env.user) || !Truthy(env.pass) then Err(NotConfigured)
    else
      var port := if Truthy(env.port) then toNumber(env.port.value) else DefaultPort;
      Ok(Transport(env.host.value, port, port == 465.0, env.user.value, env.pass.value,
                   if Truthy(env.from) then env.from.value else env.user.value))
  }

  /** Without SMTP_PORT the connection goes to port 587 and is not secure. */
  lemma DefaultPortInsecure(env: Env, toNumber: string -> real)
    requires Truthy(env.host) && Truthy(env.user) && Truthy(env.pass) && !Truthy(env.port)
    ensures TransportFor(env, toNumber).Ok? && TransportFor(env, toNumber).value.port == 587.0 &&
            !TransportFor(env, toNumber).value.secure
  {
  }
}
