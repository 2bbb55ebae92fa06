// DeviseFailureApp: what a refused sign-in or an unauthenticated request
// shows.  The warden message (a symbol, written here by its name) selects a
// fixed English text, or the framework's own text for symbols the app does
// not list; the redirect stores the attempted location and puts the text
// in the flash unless a notice is already there.

module DeviseFailureApp {
  import opened Common
  import Users
  import UserProfiles

  const InvalidCredentials: string := "Invalid email or password."

  /** `i18n_message`: the app's text for a warden message, or None where it
    * defers to the framework (`super`). */
  function I18nMessage(message: string): (r: Option<string>)
    ensures r.None? <==> message !in KnownMessages
  {
    match message
    case "not_found_in_database" => Some(InvalidCredentials)
    case "invalid" => Some(InvalidCredentials)
    case "invalid_token" => Some(InvalidCredentials)
    case "timeout" => Some("Your session expired. Please sign in again.")
    case "unconfirmed" => Some("You have to confirm your email address before continuing.")
    case "locked" => Some("Your account is locked.")
    case "pending_approval" => Some("Your account is pending approval.")
    case "account_rejected" => Some("Your account has been rejected.")
    case "unassigned_company" => Some("Your email domain is not associated with any company.")
    case _ => None
  }

  /** The messages that share the one credentials text. */
  const CredentialMessages: set<string> := {"not_found_in_database", "invalid", "invalid_token"}

  /** The messages with a text of their own. */
  const StatusMessages: set<string> :=
    {"timeout", "unconfirmed", "locked", "pending_approval", "account_rejected", "unassigned_company"}

  const KnownMessages: set<string> := CredentialMessages + StatusMessages

  /** The text the flash receives: the app's own, or the framework's. */
  function AlertText(message: string, frameworkText: string): (r: string)
    ensures message !in KnownMessages ==> r == frameworkText
  {
    match I18nMessage(message)
    case Some(text) => text
    case None => frameworkText
  }

  /** An unknown e-mail and a wrong password read the same, so the sign-in
    * form does not reveal which addresses have accounts; every other listed
    * message has a text no other message shares. */
  lemma CredentialFailuresIndistinguishable(a: string, b: string)
    requires a in KnownMessages && b in KnownMessages
    ensures a in CredentialMessages && b in CredentialMessages ==> I18nMessage(a) == I18nMessage(b)
    ensures a in StatusMessages && I18nMessage(a) == I18nMessage(b) ==> a == b
  {
    if a in CredentialMessages && b in CredentialMessages {
      CredentialTextsShared(a, b);
    }
    if a in StatusMessages && I18nMessage(a) == I18nMessage(b) {
      StatusTextsOwn(a, b);
    }
  }

  lemma CredentialTextsShared(a: string, b: string)
    requires a in CredentialMessages && b in CredentialMessages
    ensures I18nMessage(a) == I18nMessage(b) == Some(InvalidCredentials)
  {
  }

  lemma StatusTextsOwn(a: string, b: string)
    requires a in StatusMessages && b in KnownMessages && I18nMessage(a) == I18nMessage(b)
    ensures a == b
  {
    if b in CredentialMessages {
      StatusTextNotCredentials(a);
      CredentialTextsShared(b, b);
    } else {
      StatusTextsDistinct(a, b);
    }
  }

  lemma StatusTextNotCredentials(a: string)
    requires a in StatusMessages
    ensures I18nMessage(a).Some? && I18nMessage(a) != Some(InvalidCredentials)
  {
  }

  lemma StatusTextsDistinct(a: string, b: string)
    requires a in StatusMessages && b in StatusMessages && I18nMessage(a) == I18nMessage(b)
    ensures a == b
  {
    StatusFromTextLength(a);
    StatusFromTextLength(b);
  }

  /** The status message whose text has length `n`: the six texts have six
    * different lengths. */
  function StatusOfLength(n: nat): string
  {
    if n == 43 then "timeout"
    else if n == 57 then "unconfirmed"
    else if n == 23 then "locked"
    else if n == 33 then "pending_approval"
    else if n == 31 then "account_rejected"
    else "unassigned_company"
  }

  lemma StatusFromTextLength(a: string)
    requires a in StatusMessages
    ensures I18nMessage(a).Some? && StatusOfLength(|I18nMessage(a).value|) == a
  {
    if a in {"timeout", "unconfirmed", "locked"} {
      FirstStatusTexts(a);
    } else {
      LastStatusTexts(a);
    }
  }

  lemma FirstStatusTexts(a: string)
    requires a in {"timeout", "unconfirmed", "locked"}
    ensures I18nMessage(a).Some? && StatusOfLength(|I18nMessage(a).value|) == a
  {
  }

  lemma LastStatusTexts(a: string)
    requires a in {"pending_approval", "account_rejected", "unassigned_company"}
    ensures I18nMessage(a).Some? && StatusOfLength(|I18nMessage(a).value|) == a
  {
  }

  /** The warden message the framework raises for a refused sign-in: the
    * model's `inactive_message` key, with the framework's own key written
    * out by the caller. */
  function InactiveSymbol(k: Users.InactiveKey, frameworkSymbol: string): (r: string)
    ensures k == Users.PendingApprovalKey ==> r == "pending_approval"
    ensures k == Users.AccountRejectedKey ==> r == "account_rejected"
    ensures k == Users.FrameworkKey ==> r == frameworkSymbol
  {
    match k
    case PendingApprovalKey => "pending_approval"
    case AccountRejectedKey => "account_rejected"
    case FrameworkKey => frameworkSymbol
  }

  /** A member whose profile is pending or rejected and who tries to sign in
    * is told why, in the app's own words. */
  lemma RefusedMemberIsTold(profile: Option<UserProfiles.Profile>, frameworkSymbol: string, frameworkText: string)
    requires profile.Some? && profile.value.memberStatus in {UserProfiles.Pending, UserProfiles.Rejected}
    ensures AlertText(InactiveSymbol(Users.InactiveMessage(profile), frameworkSymbol), frameworkText)
              == (if profile.value.memberStatus == UserProfiles.Pending then "Your account is pending approval."
                  else "Your account has been rejected.")
  {
  }

  /** The session state the failure redirect touches: the flash and the
    * location to return to after signing in. */
  class FailureSession {
    var flash: map<string, string>
    var storedLocation: Option<string>

    constructor (flash: map<string, string>, storedLocation: Option<string>)
      ensures this.flash == flash && this.storedLocation == storedLocation
    {
      this.flash := flash;
      this.storedLocation := storedLocation;
    }

    /** `redirect`: remember the attempted location (None where the
      * framework does not store it), then, for a format that shows
      * flashes, set the alert unless a notice is already waiting; the
      * redirect itself goes to the framework's sign-in URL. */
    method Redirect(attempted: Option<string>, flashingFormat: bool, message: string, frameworkText: string)
      modifies this
      ensures storedLocation == (if attempted.Some? then attempted else old(storedLocation))
      ensures flashingFormat && "notice" !in old(flash) ==>
                flash == old(flash)["alert" := AlertText(message, frameworkText)]
      ensures !(flashingFormat && "notice" !in old(flash)) ==> flash == old(flash)
    {
      if attempted.Some? {
        storedLocation := attempted;
      }
      if flashingFormat {
        if "notice" !in flash {
          flash := flash["alert" := AlertText(message, frameworkText)];
        }
      }
    }
  }
}
