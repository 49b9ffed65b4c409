/** The WhatsApp notification service: phone numbers brought to the Nigerian
    international form, and the order-status text message, which reports failure as
    "nothing sent" instead of raising. The Graph API is an input: None when the post
    succeeded, Some(error) when it raised that error. */
module WhatsApp {
  import opened Common
  import opened StatusMessages

  predicate AllDigits(s: string)
  {
    forall k :: 0 <= k < |s| ==> IsDigit(s[k])
  }

  /** `phone.replace(/\D/g, '')`: the characters 0-9 of `phone`, in order. */
  function Digits(phone: string): (r: string)
    ensures AllDigits(r)
    ensures |r| <= |phone|
  {
    if phone == [] then [] else (if IsDigit(phone[0]) then [phone[0]] else []) + Digits(phone[1..])
  }

  /** Removing non-digits from a string of digits changes nothing. */
  lemma {:induction false} DigitsOfDigits(s: string)
    requires AllDigits(s)
    ensures Digits(s) == s
  {
    if s != [] {
      DigitsOfDigits(s[1..]);
      assert [s[0]] + s[1..] == s;
    }
  }

  /** A single character is kept exactly when it is a digit; with `DigitsAppend`
      this fixes `Digits` on every string. */
  lemma DigitsOfChar(c: char)
    ensures Digits([c]) == if IsDigit(c) then [c] else []
  {
    assert [c][1..] == [];
  }

  /** Removing non-digits distributes over concatenation. */
  lemma {:induction false} DigitsAppend(a: string, b: string)
    ensures Digits(a + b) == Digits(a) + Digits(b)
  {
    if a == [] {
      assert a + b == b;
    } else {
      assert (a + b)[1..] == a[1..] + b;
      DigitsAppend(a[1..], b);
    }
  }

  /** `formatPhoneNumber`: keep the digits; a leading '0' becomes "234", a number not
      already starting with "234" gets it prepended, and one that does is kept. */
  function FormatPhoneNumber(phone: string): (r: string)
    ensures AllDigits(r)
    ensures StartsWith(r, "234")
    ensures StartsWith(Digits(phone), "0") ==> r == "234" + Digits(phone)[1..]
    ensures !StartsWith(Digits(phone), "0") && !StartsWith(Digits(phone), "234") ==> r == "234" + Digits(phone)
    ensures StartsWith(Digits(phone), "234") ==> r == Digits(phone)
  {
    var cleaned := Digits(phone);
    assert StartsWith(cleaned, "0") ==> cleaned[0] == '0';
    assert StartsWith(cleaned, "234") ==> cleaned[0] == '2';
    if StartsWith(cleaned, "0") then "234" + cleaned[1..]
    else if !StartsWith(cleaned, "234") then "234" + cleaned
    else cleaned
  }

  /** A formatted number is a fixed point: formatting twice is formatting once. */
  lemma FormatPhoneNumberIdempotent(phone: string)
    ensures FormatPhoneNumber(FormatPhoneNumber(phone)) == FormatPhoneNumber(phone)
  {
    var r := FormatPhoneNumber(phone);
    DigitsOfDigits(r);
    assert r[0] == '2';
  }

  /** The body of a Graph API text message. */
  datatype TextMessage = TextMessage(to: string, body: string)

  /** `sendTextMessage`: post the message to the formatted number; a failed post
      is raised. */
  function SendTextMessage(phone: string, message: string, apiError: Option<string>): (r: Result<TextMessage, string>)
    ensures r.Ok? <==> apiError.None?
    ensures r.Ok? ==> r.value.to == FormatPhoneNumber(phone) && r.value.body == message
    ensures r.Err? ==> r.error == apiError.value
  {
    match apiError
    case None => Ok(TextMessage(FormatPhoneNumber(phone), message))
    case Some(e) => Err(e)
  }

  /** `sendOrderStatusUpdate`: the status text for the order, sent as a text
      message; a failure gives None (null) instead of an error. */
  function SendOrderStatusUpdate(phone: string, customerName: string, orderId: string, status: string,
                                 additionalInfo: string, apiError: Option<string>): (r: Option<TextMessage>)
    ensures r.Some? <==> apiError.None?
    ensures r.Some? ==> r.value.to == FormatPhoneNumber(phone)
    ensures r.Some? ==> r.value.body == StatusMessage(customerName, orderId, status, additionalInfo)
  {
    match SendTextMessage(phone, StatusMessage(customerName, orderId, status, additionalInfo), apiError)
    case Ok(m) => Some(m)
    case Err(_) => None
  }
}
