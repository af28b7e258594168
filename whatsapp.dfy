/** The WhatsApp notification gateway: `sendMessage` reads the NextSMS token from
    the settings, normalises the receiver to an Indian international number and
    issues one request. The remote call itself is an input (`Remote`). */
module Whatsapp {
  import opened Wrappers
  import opened Strings

  const TokenKey := "nextsms_token"
  const CountryCode := "91"
  const NotConfiguredError := "WhatsApp API token not configured. Please set it in Admin Panel."
  const DefaultApiError := "Failed to send message"

  /** `Setting.get(key)`: the stored value, or None when no setting has that key. */
  function SettingGet(settings: map<string, string>, key: string): Option<string>
  {
    if key in settings then Some(settings[key]) else None
  }

  /** The token `sendMessage` would use: absent, and also empty, count as not configured
      (`sendMessage` tests `!token`). */
  function Token(settings: map<string, string>): Option<string>
  {
    match SettingGet(settings, TokenKey)
    case Some(t) => if t != "" then Some(t) else None
    case None => None
  }

  /** The receiver number: digits only; ten digits get the country code in front;
      then a leading zero is replaced by the country code. */
  function NormalizeReceiver(phone: string): string
  {
    var digits := DigitsOnly(phone);
    var receiver := if |digits| == 10 then CountryCode + digits else digits;
    if |receiver| > 0 && receiver[0] == '0' then CountryCode + receiver[1..] else receiver
  }

  /** The query of the outbound GET: `receiver`, `msgtext`, `token` and an optional `mediaUrl`. */
  datatype Request = Request(receiver: string, msgtext: string, token: string, mediaUrl: Option<string>)

  /** What the remote end did: answered (HTTP ok or not, with the `message` of its JSON body,
      "" when absent) or made the call throw (network error, body not JSON). */
  datatype Remote = Responded(ok: bool, message: string) | Threw(message: string)

  datatype Outcome = Sent | Failed(error: string)

  /** The request that was issued, if any, and the `{success, error}` answer. */
  datatype Delivery = Delivery(request: Option<Request>, outcome: Outcome)

  function SendMessage(settings: map<string, string>, phone: string, message: string,
                       mediaUrl: string, remote: Remote): Delivery
  {
    match Token(settings)
    case None => Delivery(None, Failed(NotConfiguredError))
    case Some(token) =>
      var request := Request(NormalizeReceiver(phone), message, token,
                             if mediaUrl != "" then Some(mediaUrl) else None);
      match remote
      case Responded(ok, m) =>
        if ok then Delivery(Some(request), Sent)
        else Delivery(Some(request), Failed(if m != "" then m else DefaultApiError))
      case Threw(m) => Delivery(Some(request), Failed(m))
  }

  /** Whether a message goes through: a token is configured and the remote end answered ok. */
  predicate Deliverable(settings: map<string, string>, remote: Remote)
  {
    Token(settings).Some? && remote.Responded? && remote.ok
  }

  // ----- Properties of the token gate -----

  /** Without a usable token nothing is sent: no request is built and the answer is the
      configuration error. */
  lemma NoTokenNoRequest(settings: map<string, string>, phone: string, message: string,
                         mediaUrl: string, remote: Remote)
    requires TokenKey !in settings || settings[TokenKey] == ""
    ensures SendMessage(settings, phone, message, mediaUrl, remote)
            == Delivery(None, Failed(NotConfiguredError))
  {
  }

  /** With a token, exactly one request goes out, to the normalised receiver and carrying
      the token, and success follows the remote answer. */
  lemma TokenSendsOneRequest(settings: map<string, string>, phone: string, message: string,
                             mediaUrl: string, remote: Remote)
    requires TokenKey in settings && settings[TokenKey] != ""
    ensures var d := SendMessage(settings, phone, message, mediaUrl, remote);
            && d.request.Some?
            && d.request.value.receiver == NormalizeReceiver(phone)
            && d.request.value.token == settings[TokenKey]
            && d.request.value.msgtext == message
            && (d.request.value.mediaUrl.Some? <==> mediaUrl != "")
            && (d.outcome.Sent? <==> remote.Responded? && remote.ok)
  {
  }

  /** Success is exactly `Deliverable`, whatever the phone and the text. */
  lemma SuccessIffDeliverable(settings: map<string, string>, phone: string, message: string,
                              mediaUrl: string, remote: Remote)
    ensures SendMessage(settings, phone, message, mediaUrl, remote).outcome.Sent?
            <==> Deliverable(settings, remote)
  {
  }

  /** A failed answer carries the remote message, or the default text when it has none. */
  lemma RemoteErrorText(settings: map<string, string>, phone: string, message: string,
                        mediaUrl: string, m: string)
    requires Token(settings).Some?
    ensures SendMessage(settings, phone, message, mediaUrl, Responded(false, m)).outcome
            == Failed(if m == "" then DefaultApiError else m)
  {
  }

  // ----- Properties of the receiver normalisation -----

  /** The receiver consists of digits only. */
  lemma NormalizedIsDigits(phone: string)
    ensures AllDigits(NormalizeReceiver(phone))
  {
    var digits := DigitsOnly(phone);
    var receiver := if |digits| == 10 then CountryCode + digits else digits;
    assert AllDigits(receiver);
    if |receiver| > 0 && receiver[0] == '0' {
      var r := CountryCode + receiver[1..];
      forall i | 0 <= i < |r| ensures IsDigit(r[i]) {
        if i >= 2 {
          assert r[i] == receiver[i - 1];
        }
      }
    }
  }

  /** Exactly ten digits: the country code followed by those ten digits, twelve in all. */
  lemma TenDigitsGetCountryCode(phone: string)
    requires |DigitsOnly(phone)| == 10
    ensures NormalizeReceiver(phone) == CountryCode + DigitsOnly(phone)
    ensures |NormalizeReceiver(phone)| == 12
  {
  }

  /** Not ten digits and a leading zero: the zero becomes the country code, one longer. */
  lemma LeadingZeroReplaced(phone: string)
    requires |DigitsOnly(phone)| != 10
    requires |DigitsOnly(phone)| > 0 && DigitsOnly(phone)[0] == '0'
    ensures NormalizeReceiver(phone) == CountryCode + DigitsOnly(phone)[1..]
    ensures |NormalizeReceiver(phone)| == |DigitsOnly(phone)| + 1
  {
  }

  /** Any other digit string is sent as it is. */
  lemma OtherDigitsUnchanged(phone: string)
    requires |DigitsOnly(phone)| != 10
    requires |DigitsOnly(phone)| == 0 || DigitsOnly(phone)[0] != '0'
    ensures NormalizeReceiver(phone) == DigitsOnly(phone)
  {
  }

  /** A twelve-digit number already starting with the country code is left unchanged. */
  lemma PrefixedNumberUnchanged(phone: string)
    requires AllDigits(phone) && |phone| == 12 && phone[..2] == CountryCode
    ensures NormalizeReceiver(phone) == phone
  {
    DigitsOnlyOfDigits(phone);
    assert phone[0] == '9';
  }
}
