/** The verification mails of the account controller: who gets which code, and
    the two texts that announce it. */
module AccountMail {
  import opened Common

  const VerifySubject: string := "Verify Your Email Address"

  /** A verification mail to `to` announcing `otp` to `name`: the sign-up mail
      when `signup`, the re-sent one otherwise. */
  datatype CodeMail = CodeMail(to: string, name: string, otp: string, signup: bool)

  /** The body `sendTextEmail` receives for a verification mail (its subject is
      `VerifySubject`); it carries the code the mail announces. */
  function MailText(m: CodeMail): (text: string)
    ensures Contains(text, m.otp)
  {
    CodeTextHoldsCode(m.name, m.otp, m.signup);
    CodeText(m.name, m.otp, m.signup)
  }

  /** The fixed pieces of the two verification texts, around the name and the code. */
  function Greeting(): string { "\n      Hi " }

  function CodeIntro(signup: bool): string
  {
    if signup then "!\n      Thank you for signing up with Ollan Pharmacy.\n      Your verification code is: <strong>"
    else "!\n      Your new verification code is: <strong>"
  }

  function CodeTrailer(): string
  {
    "</strong>\n      Please enter this code in the verification page to confirm your email.\n      This code will expire in 10 minutes.\n    "
  }

  /** The text of the sign-up mail (`signup`) or of the re-sent one. */
  function CodeText(name: string, otp: string, signup: bool): string
  {
    Greeting() + name + CodeIntro(signup) + otp + CodeTrailer()
  }

  /** Both verification texts carry the code they announce. */
  lemma CodeTextHoldsCode(name: string, otp: string, signup: bool)
    ensures Contains(CodeText(name, otp, signup), otp)
  {
    ContainsMiddle(Greeting() + name + CodeIntro(signup), otp, CodeTrailer());
  }
}
