/** The email service: the address check and clean-up applied before sending, plain
    text sending, and the order-status email that reports failure as "no mail"
    instead of raising. The SMTP transport is an input: None when it delivered,
    Some(error) when it raised that error. */
module EmailService {
  import opened Common
  import opened StatusMessages

  /** A character of the `\s` class of JavaScript regular expressions; `trim`
      removes the same characters. */
  predicate IsWhitespace(c: char)
  {
    || c == ' ' || c == '\t' || c == '\n' || c == '\U{B}' || c == '\U{C}' || c == '\r'
    || c == '\U{A0}' || c == '\U{1680}' || ('\U{2000}' <= c <= '\U{200A}')
    || c == '\U{2028}' || c == '\U{2029}' || c == '\U{202F}' || c == '\U{205F}'
    || c == '\U{3000}' || c == '\U{FEFF}'
  }

  /** A character of the class `[^\s@]`. */
  predicate Plain(c: char)
  {
    !IsWhitespace(c) && c != '@'
  }

  predicate AllPlain(s: string)
  {
    forall k :: 0 <= k < |s| ==> Plain(s[k])
  }

  /** `s` splits as a@b.c around the '@' at i and the '.' at j, with a, b and c
      non-empty runs of `[^\s@]`. */
  predicate RegexSplit(s: string, i: int, j: int)
  {
    && 0 < i && i + 1 < j && j + 1 < |s|
    && s[i] == '@' && s[j] == '.'
    && AllPlain(s[..i]) && AllPlain(s[i + 1..j]) && AllPlain(s[j + 1..])
  }

  /** The regular expression `^[^\s@]+@[^\s@]+\.[^\s@]+$`, read literally. */
  ghost predicate MatchesEmailRegex(s: string)
  {
    exists i, j :: RegexSplit(s, i, j)
  }

  /** The same language described by its shape: no whitespace, exactly one '@',
      something before it, and a '.' after it with a character on each side. */
  predicate ValidEmail(s: string)
  {
    && (forall k | 0 <= k < |s| :: !IsWhitespace(s[k]))
    && exists i | 0 < i < |s| ::
         && s[i] == '@'
         && (forall k | 0 <= k < |s| && k != i :: s[k] != '@')
         && (exists j | i + 1 < j < |s| - 1 :: s[j] == '.')
  }

  /** The shape description and the regular expression accept the same strings. */
  lemma ValidEmailIffRegex(s: string)
    ensures ValidEmail(s) <==> MatchesEmailRegex(s)
  {
    if ValidEmail(s) {
      var i :| 0 < i < |s| && s[i] == '@' && (forall k | 0 <= k < |s| && k != i :: s[k] != '@')
        && (exists j | i + 1 < j < |s| - 1 :: s[j] == '.');
      var j :| i + 1 < j < |s| - 1 && s[j] == '.';
      var local, domain, top := s[..i], s[i + 1..j], s[j + 1..];
      forall k | 0 <= k < |local| ensures Plain(local[k]) {
        assert local[k] == s[k];
      }
      forall k | 0 <= k < |domain| ensures Plain(domain[k]) {
        assert domain[k] == s[i + 1 + k];
      }
      forall k | 0 <= k < |top| ensures Plain(top[k]) {
        assert top[k] == s[j + 1 + k];
      }
      assert RegexSplit(s, i, j);
    }
    if MatchesEmailRegex(s) {
      var i, j :| RegexSplit(s, i, j);
      forall k | 0 <= k < |s| ensures !IsWhitespace(s[k]) && (k != i ==> s[k] != '@') {
        if k < i {
          assert s[..i][k] == s[k];
        } else if i < k < j {
          assert s[i + 1..j][k - i - 1] == s[k];
        } else if j < k {
          assert s[j + 1..][k - j - 1] == s[k];
        }
      }
      assert s[i] == '@' && s[j] == '.';
    }
  }

  /** The string without its leading whitespace. */
  function TrimStart(s: string): (r: string)
    ensures |r| <= |s| && r == s[|s| - |r|..]
    ensures r == [] || !IsWhitespace(r[0])
  {
    if s != [] && IsWhitespace(s[0]) then TrimStart(s[1..]) else s
  }

  /** `TrimStart` removes only whitespace. */
  lemma {:induction false} TrimStartRemovesWhitespace(s: string)
    ensures forall k :: 0 <= k < |s| - |TrimStart(s)| ==> IsWhitespace(s[k])
  {
    if s != [] && IsWhitespace(s[0]) {
      TrimStartRemovesWhitespace(s[1..]);
      forall k | 1 <= k < |s| - |TrimStart(s)| ensures IsWhitespace(s[k]) {
        assert s[k] == s[1..][k - 1];
      }
    }
  }

  /** The string without its trailing whitespace. */
  function TrimEnd(s: string): (r: string)
    ensures |r| <= |s| && r == s[..|r|]
    ensures r == [] || !IsWhitespace(r[|r| - 1])
  {
    if s != [] && IsWhitespace(s[|s| - 1]) then TrimEnd(s[..|s| - 1]) else s
  }

  /** `TrimEnd` removes only whitespace. */
  lemma {:induction false} TrimEndRemovesWhitespace(s: string)
    ensures forall k :: |TrimEnd(s)| <= k < |s| ==> IsWhitespace(s[k])
  {
    if s != [] && IsWhitespace(s[|s| - 1]) {
      TrimEndRemovesWhitespace(s[..|s| - 1]);
      forall k | |TrimEnd(s)| <= k < |s| - 1 ensures IsWhitespace(s[k]) {
        assert s[k] == s[..|s| - 1][k];
      }
    }
  }

  /** `String.prototype.trim`: neither end of the result is whitespace, and a
      string without whitespace is kept as it is. */
  function Trim(s: string): (r: string)
    ensures r == [] || (!IsWhitespace(r[0]) && !IsWhitespace(r[|r| - 1]))
    ensures (forall k :: 0 <= k < |s| ==> !IsWhitespace(s[k])) ==> r == s
  {
    TrimEnd(TrimStart(s))
  }

  /** `formatEmail`: reject an address the regular expression refuses, otherwise
      return it trimmed, which gives it back unchanged since it holds no whitespace. */
  function FormatEmail(email: string): (r: Result<string, string>)
    ensures r.Ok? <==> MatchesEmailRegex(email)
    ensures r.Ok? ==> r.value == email
    ensures r.Err? ==> r.error == "Invalid email address: " + email
  {
    ValidEmailIffRegex(email);
    if !ValidEmail(email) then Err("Invalid email address: " + email) else Ok(Trim(email))
  }

  /** A message handed to the transport. */
  datatype Mail = Mail(to: string, subject: string, text: string, html: string)

  /** `sendTextEmail`: format the address, then send; either failure is raised. */
  function SendTextEmail(email: string, subject: string, message: string, transportError: Option<string>): (r: Result<Mail, string>)
    ensures r.Ok? <==> MatchesEmailRegex(email) && transportError.None?
    ensures r.Ok? ==> r.value == Mail(email, subject, message, "<p>" + message + "</p>")
    ensures !MatchesEmailRegex(email) ==> r == Err("Invalid email address: " + email)
    ensures MatchesEmailRegex(email) && transportError.Some? ==> r == Err(transportError.value)
  {
    match FormatEmail(email)
    case Err(e) => Err(e)
    case Ok(to) =>
      match transportError
      case None => Ok(Mail(to, subject, message, "<p>" + message + "</p>"))
      case Some(e) => Err(e)
  }

  /** The subject of a status mail names the order. */
  function Subject(orderId: string): (subject: string)
    ensures Contains(subject, "#" + orderId)
  {
    ContainsMiddle("Ollan Pharmacy: Order ", "#" + orderId, " Update");
    assert "Ollan Pharmacy: Order " + ("#" + orderId) + " Update" == "Ollan Pharmacy: Order #" + orderId + " Update";
    "Ollan Pharmacy: Order #" + orderId + " Update"
  }

  /** `sendOrderStatusUpdate`: the status text under the fixed subject; any failure,
      an invalid address included, gives None (null) instead of an error. */
  function SendOrderStatusUpdate(email: string, customerName: string, orderId: string, status: string,
                                 additionalInfo: string, transportError: Option<string>): (r: Option<Mail>)
    ensures r.Some? <==> MatchesEmailRegex(email) && transportError.None?
    ensures r.Some? ==> r.value.to == email && r.value.subject == Subject(orderId)
    ensures r.Some? ==> r.value.text == StatusMessage(customerName, orderId, status, additionalInfo)
  {
    match SendTextEmail(email, Subject(orderId), StatusMessage(customerName, orderId, status, additionalInfo), transportError)
    case Ok(m) => Some(m)
    case Err(_) => None
  }
}
