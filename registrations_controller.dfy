// Users::RegistrationsController: sign-up is only open to e-mail addresses
// whose domain belongs to an active company, the landing pages after sign-up
// and account update, the permitted form fields, and the removal of a blank
// password from the account-update form before the framework applies it.

module RegistrationsController {
  import opened Common
  import opened Web
  import Domains
  import Companies

  const InvalidEmailDomainKey: string := "devise.registrations.invalid_email_domain"

  /** The fields `sign_up_params` lets through. */
  const SignUpFields: set<string> := {"email", "password", "password_confirmation"}

  /** The fields `account_update_params` lets through. */
  const AccountUpdateFields: set<string> := {"email", "password", "password_confirmation", "current_password"}

  /** `sign_up_params`: the scalar e-mail and password fields of the form,
    * nothing else (no role, company or member status can be submitted). */
  function SignUpParams(submitted: map<string, Param>): (r: map<string, Param>)
    ensures forall k :: k in r <==> k in SignUpFields && k in submitted && submitted[k].Text?
    ensures forall k :: k in r ==> r[k] == submitted[k]
  {
    Permit(submitted, SignUpFields, {})
  }

  /** `account_update_params`: the sign-up fields and the current password. */
  function AccountUpdateParams(submitted: map<string, Param>): (r: map<string, Param>)
    ensures forall k :: k in r <==> k in AccountUpdateFields && k in submitted && submitted[k].Text?
    ensures forall k :: k in r ==> r[k] == submitted[k]
  {
    Permit(submitted, AccountUpdateFields, {})
  }

  /** Whatever else a sign-up form carries does not reach the new account:
    * adding, changing or dropping a field outside the permitted ones leaves
    * the permitted parameters as they were. */
  lemma SignUpIgnoresOtherFields(submitted: map<string, Param>, k: string, v: Param)
    requires k !in SignUpFields
    ensures SignUpParams(submitted[k := v]) == SignUpParams(submitted)
    ensures SignUpParams(submitted - {k}) == SignUpParams(submitted)
  {
    PermitIgnoresOtherKeys(submitted, SignUpFields, {}, k, v);
  }

  /** `sign_up_params[:email]`, with a missing or non-scalar field read as
    * nil, whose `to_s` is the empty string. */
  function SubmittedEmail(submitted: map<string, Param>): string
  {
    var ps := SignUpParams(submitted);
    if "email" in ps then ps["email"].text else ""
  }

  /** The `validate_email_domain` filter of `create`: the sign-up goes on
    * only when some active company lists the e-mail's domain; otherwise it
    * goes back to the sign-up form with an alert. */
  function ValidateEmailDomain(submitted: map<string, Param>, companies: seq<Companies.Company>): (r: Response)
    reads set c | c in companies
    ensures r == Continue || r == RedirectWith(SignUp, Alert(InvalidEmailDomainKey))
    ensures r == Continue <==>
              Domains.EmailDomain(SubmittedEmail(submitted)).Some?
              && exists i :: 0 <= i < |companies| && companies[i].isActive
                   && Domains.CompanyHasDomain(companies[i].domains, Domains.EmailDomain(SubmittedEmail(submitted)).value)
  {
    var found := Companies.FindByEmailDomain(SubmittedEmail(submitted), companies);
    if found.None? then RedirectWith(SignUp, Alert(InvalidEmailDomainKey))
    else
      ghost var i :| 0 <= i < |companies| && companies[i] == found.value;
      Continue
  }

  /** `after_sign_up_path_for` and `after_inactive_sign_up_path_for`: a new
    * account lands on the waiting page whether or not the framework lets it
    * in straight away. */
  function AfterSignUp(activeForAuthentication: bool): (r: Page)
    ensures r == PendingApproval
  {
    PendingApproval
  }

  /** `after_update_path_for`: back to the account form. */
  function AfterUpdate(): (r: Page)
    ensures r == EditRegistration
  {
    EditRegistration
  }

  /** `params[:password].blank?`: a missing password is blank. */
  predicate BlankField(params: map<string, string>, k: string)
  {
    k !in params || Blank(params[k])
  }

  /** The parameters `update_resource` passes on: with a blank password the
    * password is dropped, and so is the confirmation when it is blank too;
    * every other field, and a present password, is kept as submitted. */
  function StripBlankPassword(params: map<string, string>): (r: map<string, string>)
    ensures !BlankField(params, "password") ==> r == params
    ensures BlankField(params, "password") ==>
              "password" !in r
              && ("password_confirmation" in r <==> !BlankField(params, "password_confirmation"))
    ensures forall k :: k in r ==> k in params && r[k] == params[k]
    ensures forall k :: k in params && k != "password" && k != "password_confirmation" ==> k in r
  {
    if BlankField(params, "password") then
      if BlankField(params, "password_confirmation") then params - {"password", "password_confirmation"}
      else params - {"password"}
    else params
  }

  /** The framework's own update applies the same rule again; on parameters
    * already stripped it changes nothing. */
  lemma StripBlankPasswordIdempotent(params: map<string, string>)
    ensures StripBlankPassword(StripBlankPassword(params)) == StripBlankPassword(params)
  {
  }

  /** A blank password never reaches the account, and a non-blank one
    * always does, with its confirmation. */
  lemma StripKeepsRealPasswords(params: map<string, string>)
    ensures "password" in StripBlankPassword(params) <==> !BlankField(params, "password")
    ensures !BlankField(params, "password") && "password_confirmation" in params ==>
              StripBlankPassword(params)["password_confirmation"] == params["password_confirmation"]
  {
  }

  /** The account-update parameters that `update_resource` receives and
    * edits in place before handing them to the framework. */
  class UpdateParams {
    var entries: map<string, string>

    constructor (entries: map<string, string>)
      ensures this.entries == entries
    {
      this.entries := entries;
    }

    /** `update_resource`: delete the password when blank, then the
      * confirmation when that is blank as well. */
    method DropBlankPassword()
      modifies this
      ensures entries == StripBlankPassword(old(entries))
    {
      if BlankField(entries, "password") {
        entries := entries - {"password"};
        if BlankField(entries, "password_confirmation") {
          entries := entries - {"password_confirmation"};
        }
      }
    }
  }
}
