/**
 * The sign-up page's validation code: six characters drawn from an alphabet without the
 * look-alike characters 0, O, I and 1, which the user must type back before the form is sent.
 * The six `Math.random()` draws are a parameter: the indices `floor(random * 32)` they produce.
 */
module SignUpPage {
  import opened Text
  import opened ClientState

  /** "ABCDEFGHJKLMNPQRSTUVWXYZ23456789", written in four runs of eight. */
  const CodeAlphabet: string := "ABCDEFGH" + "JKLMNPQR" + "STUVWXYZ" + "23456789"
  const CodeLength: nat := 6

  /** Upper-case letters other than I and O, and the digits 2 to 9. */
  predicate IsCodeChar(c: char)
  {
    ('A' <= c <= 'Z' && c != 'I' && c != 'O') || ('2' <= c <= '9')
  }

  /** Six characters, each from the alphabet. */
  predicate WellFormedCode(code: string)
  {
    |code| == CodeLength && forall i :: 0 <= i < |code| ==> code[i] in CodeAlphabet
  }

  /** Indices as `Math.floor(Math.random() * chars.length)` yields them, one per character. */
  predicate ValidDraws(draws: seq<int>)
  {
    |draws| == CodeLength && forall i :: 0 <= i < |draws| ==> 0 <= draws[i] < |CodeAlphabet|
  }

  /** `generateValidationCode`: appends one drawn character per iteration. */
  method GenerateValidationCode(draws: seq<int>) returns (code: string)
    requires ValidDraws(draws)
    ensures WellFormedCode(code)
    ensures forall i :: 0 <= i < CodeLength ==> code[i] == CodeAlphabet[draws[i]]
  {
    code := "";
    for i := 0 to CodeLength
      invariant |code| == i
      invariant forall k :: 0 <= k < i ==> code[k] == CodeAlphabet[draws[k]]
    {
      code := code + [CodeAlphabet[draws[i]]];
    }
  }

  /** The alphabet has 32 characters: the upper-case letters other than I and O, and 2 to 9. */
  lemma AlphabetFacts()
    ensures |CodeAlphabet| == 32
    ensures forall c :: c in CodeAlphabet ==> IsCodeChar(c)
  {
    forall c | c in CodeAlphabet
      ensures IsCodeChar(c)
    {
      assert c in "ABCDEFGH" || c in "JKLMNPQR" || c in "STUVWXYZ" || c in "23456789";
    }
  }

  /** A well-formed code never shows one of the confusable characters. */
  lemma CodeHasNoConfusables(code: string)
    requires WellFormedCode(code)
    ensures '0' !in code && 'O' !in code && 'I' !in code && '1' !in code
  {
    AlphabetFacts();
  }

  /** What the input holds after the user types `typed`: at most six characters, upper-cased. */
  function TypedCode(typed: string): (userCode: string)
    ensures |userCode| <= CodeLength
    ensures |userCode| == if |typed| <= CodeLength then |typed| else CodeLength
    ensures forall i :: 0 <= i < |userCode| ==> userCode[i] == UpperChar(typed[i]) && !('a' <= userCode[i] <= 'z')
  {
    ToUpper(if |typed| <= CodeLength then typed else typed[..CodeLength])
  }

  /** The check in `onSubmit`: `userCode.toUpperCase() === validationCode`. */
  function CodeAccepted(userCode: string, validationCode: string): (accepted: bool)
    ensures accepted <==> (|userCode| == |validationCode| &&
      forall i :: 0 <= i < |userCode| ==> UpperChar(userCode[i]) == validationCode[i])
  {
    ToUpper(userCode) == validationCode
  }

  /** Typing the code in lower case is accepted, since the input upper-cases it. */
  lemma LowerCaseEntryAccepted(code: string)
    requires WellFormedCode(code)
    ensures CodeAccepted(TypedCode(ToLower(code)), code)
  {
    AlphabetFacts();
    assert forall i :: 0 <= i < |code| ==> IsCodeChar(code[i]);
    ToUpperUndoesToLower(code);
    ToUpperIdempotent(code);
  }

  /** An empty entry, as left by a refresh, never matches a code. */
  lemma EmptyEntryRejected(code: string)
    requires WellFormedCode(code)
    ensures !CodeAccepted("", code)
  {
  }

  class SignUpForm {
    var validationCode: string
    var userCode: string

    /** Mounting the page: the effect installs a fresh code; the entry starts empty. */
    constructor (draws: seq<int>)
      requires ValidDraws(draws)
      ensures WellFormedCode(validationCode) && userCode == ""
    {
      userCode := "";
      validationCode := "";
      new;
      validationCode := GenerateValidationCode(draws);
    }

    /** `refreshValidationCode`: a new code, and the entry cleared. */
    method Refresh(draws: seq<int>)
      requires ValidDraws(draws)
      modifies this
      ensures WellFormedCode(validationCode)
      ensures forall i :: 0 <= i < CodeLength ==> validationCode[i] == CodeAlphabet[draws[i]]
      ensures userCode == ""
    {
      validationCode := GenerateValidationCode(draws);
      userCode := "";
    }

    /** The input's `onChange` (with `maxLength={6}`): the entry becomes the typed text, upper-cased. */
    method TypeCode(typed: string)
      modifies this
      ensures userCode == TypedCode(typed) && validationCode == old(validationCode)
    {
      userCode := TypedCode(typed);
    }

    /**
     * `onSubmit`: a wrong code only shows a toast and never calls sign-up; with the right code
     * sign-up is called, and its outcome decides between going to "/" and an error toast.
     */
    method Submit(app: AppState, signUpSucceeds: bool, errorMessage: string) returns (signUpCalled: bool)
      modifies app
      ensures signUpCalled <==> CodeAccepted(userCode, validationCode)
      ensures !signUpCalled ==>
        (app.location == old(app.location) &&
         app.toasts == old(app.toasts) + [Toast("Validation failed", "Please enter the correct validation code", true)])
      ensures signUpCalled && signUpSucceeds ==>
        (app.location == "/" &&
         app.toasts == old(app.toasts) + [Toast("Account created successfully!", "Welcome to Unitas LogistiX", false)])
      ensures signUpCalled && !signUpSucceeds ==>
        (app.location == old(app.location) &&
         app.toasts == old(app.toasts) +
           [Toast("Sign up failed", if errorMessage != "" then errorMessage else "Please try again", true)])
    {
      if ToUpper(userCode) != validationCode {
        app.toasts := app.toasts + [Toast("Validation failed", "Please enter the correct validation code", true)];
        return false;
      }
      signUpCalled := true;
      if signUpSucceeds {
        app.toasts := app.toasts + [Toast("Account created successfully!", "Welcome to Unitas LogistiX", false)];
        app.location := "/";
      } else {
        var description := if errorMessage != "" then errorMessage else "Please try again";
        app.toasts := app.toasts + [Toast("Sign up failed", description, true)];
      }
    }
  }
}
