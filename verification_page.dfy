/** The stand-alone e-mail verification screen
    (`src/components/VerificationPage.jsx`): the code input keeps at most six
    digits, and a submit is sent only for a code of exactly six. */
module VerificationPage {
  import opened Common

  /** The input's `onChange`: `value.replace(/\D/g, '').slice(0, 6)`. */
  function SanitizeCode(value: string): (code: string)
    ensures AllDigits(code) && |code| <= 6
    ensures |code| == (if |Digits(value)| < 6 then |Digits(value)| else 6)
    // the first six digits of the input, in order
    ensures code == Digits(value)[..|code|]
  {
    Take(Digits(value), 6)
  }

  /** Sanitising a sanitised code changes nothing. */
  lemma SanitizeCodeIdempotent(value: string)
    ensures SanitizeCode(SanitizeCode(value)) == SanitizeCode(value)
  {
    DigitsOfDigits(SanitizeCode(value));
  }

  const MSG_INVALID_CODE: string := "Please enter a valid 6-digit code"
  const MSG_VERIFIED: string := "Email verified successfully! Redirecting to login..."

  /** What the submit sends: `{ email, confirmationCode }`. */
  datatype VerifyEmailRequest = VerifyEmailRequest(email: string, confirmationCode: string)

  class CodeEntry {
    /** The address the code was sent to, a prop of the screen. */
    const email: string
    var code: string
    var error: string
    var success: string
    var isLoading: bool

    constructor (email: string)
      ensures this.email == email && code == "" && error == "" && success == "" && !isLoading
    {
      this.email := email;
      code, error, success, isLoading := "", "", "", false;
    }

    method SetCode(value: string)
      modifies this
      ensures code == SanitizeCode(value)
      ensures error == old(error) && success == old(success) && isLoading == old(isLoading)
    {
      code := SanitizeCode(value);
    }

    /** `handleSubmit` up to its `fetch`: both messages are cleared first,
        and only a six-character code is sent. */
    method Submit() returns (req: Option<VerifyEmailRequest>)
      modifies this
      ensures success == "" && code == old(code)
      ensures |code| != 6 ==> req.None? && error == MSG_INVALID_CODE && isLoading == old(isLoading)
      ensures |code| == 6 ==> req == Some(VerifyEmailRequest(email, code)) && error == "" && isLoading
    {
      error := "";
      success := "";
      if code == "" || |code| != 6 {
        error := MSG_INVALID_CODE;
        return None;
      }
      isLoading := true;
      return Some(VerifyEmailRequest(email, code));
    }

    /** The answer to the request; `complete` is the (delayed) call of
        `onVerificationComplete`. */
    method OnResponse(ok: bool, serverError: string) returns (complete: bool)
      modifies this
      ensures !isLoading && code == old(code) && complete == ok
      ensures !ok ==> error == (if serverError != "" then serverError else "Verification failed") && success == old(success)
      ensures ok ==> success == MSG_VERIFIED && error == old(error)
    {
      isLoading := false;
      if !ok {
        error := if serverError != "" then serverError else "Verification failed";
        return false;
      }
      success := MSG_VERIFIED;
      return true;
    }

    method OnFetchError(message: string)
      modifies this
      ensures error == "Error: " + message && !isLoading
      ensures code == old(code) && success == old(success)
    {
      error := "Error: " + message;
      isLoading := false;
    }
  }

  /** Typing a value with at least six digits makes the next submit send
      exactly its first six digits. */
  method TypeThenSubmit(page: CodeEntry, value: string) returns (req: Option<VerifyEmailRequest>)
    requires |Digits(value)| >= 6
    modifies page
    ensures req == Some(VerifyEmailRequest(page.email, Digits(value)[..6]))
  {
    page.SetCode(value);
    req := page.Submit();
  }
}
