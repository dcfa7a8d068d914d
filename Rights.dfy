/**
 * The rights table of rights.js: which transaction kinds each account type
 * may originate.  Kinds that appear in no list (PAYMENT, POLL_ANSWER,
 * ACCOUNT_VALIDATION) are the rights-exempt ones.
 */
module Rights {
  import opened Json

  /** The transaction kinds named by the ledger, GETRATERATIO included. */
  datatype Kind =
    | Payment
    | VectorTransaction
    | SetRateRatio
    | SetDailyBonus
    | GetRateRatio
    | AskValidationAccount
    | AccountValidation
    | PollQuestion
    | PollAnswer
    | Information

  /** The wire name of each kind. */
  function KindName(k: Kind): string
  {
    match k
    case Payment => "PAYMENT"
    case VectorTransaction => "VECTOR_TRANSACTION"
    case SetRateRatio => "SETRATERATIO"
    case SetDailyBonus => "SETDAILYBONUS"
    case GetRateRatio => "GETRATERATIO"
    case AskValidationAccount => "ASK_VALIDATION_ACCOUNT"
    case AccountValidation => "ACCOUNT_VALIDATION"
    case PollQuestion => "POLL_QUESTION"
    case PollAnswer => "POLL_ANSWER"
    case Information => "INFORMATION"
  }

  /** The kind a wire name denotes, if any. */
  function ParseKind(s: string): (k: Option<Kind>)
    ensures k.Some? ==> KindName(k.value) == s
  {
    if s == "PAYMENT" then Some(Payment)
    else if s == "VECTOR_TRANSACTION" then Some(VectorTransaction)
    else if s == "SETRATERATIO" then Some(SetRateRatio)
    else if s == "SETDAILYBONUS" then Some(SetDailyBonus)
    else if s == "GETRATERATIO" then Some(GetRateRatio)
    else if s == "ASK_VALIDATION_ACCOUNT" then Some(AskValidationAccount)
    else if s == "ACCOUNT_VALIDATION" then Some(AccountValidation)
    else if s == "POLL_QUESTION" then Some(PollQuestion)
    else if s == "POLL_ANSWER" then Some(PollAnswer)
    else if s == "INFORMATION" then Some(Information)
    else None
  }

  lemma ParseKindName(k: Kind)
    ensures ParseKind(KindName(k)) == Some(k)
  {
  }

  /** ACCOUNT_RIGHTS. */
  const AccountRights: map<string, set<Kind>> := map[
    "standard" := {VectorTransaction, SetDailyBonus, GetRateRatio, AskValidationAccount},
    "enterprise" := {VectorTransaction, AskValidationAccount},
    "institution" := {VectorTransaction, AskValidationAccount, Information},
    "administration" := {Information, PollQuestion, SetRateRatio}
  ]

  const AccountTypes: set<string> := {"standard", "enterprise", "institution", "administration"}

  /** The allow-list of an account type; nothing for a type the table does not list. */
  function AllowedKinds(accountType: string): (r: Option<set<Kind>>)
    ensures r.Some? <==> accountType in AccountTypes
  {
    if accountType in AccountRights then Some(AccountRights[accountType]) else None
  }

  /** The account type has an allow-list and the kind is in it. */
  predicate Allows(accountType: string, k: Kind)
  {
    AllowedKinds(accountType).Some? && k in AllowedKinds(accountType).value
  }

  lemma StandardRights()
    ensures AllowedKinds("standard") == Some({VectorTransaction, SetDailyBonus, GetRateRatio, AskValidationAccount})
  {
  }

  lemma EnterpriseRights()
    ensures AllowedKinds("enterprise") == Some({VectorTransaction, AskValidationAccount})
    ensures !Allows("enterprise", SetRateRatio)
  {
  }

  lemma InstitutionRights()
    ensures AllowedKinds("institution") == Some({VectorTransaction, AskValidationAccount, Information})
  {
  }

  lemma AdministrationRights()
    ensures AllowedKinds("administration") == Some({Information, PollQuestion, SetRateRatio})
    ensures !Allows("administration", VectorTransaction)
  {
  }

  /** SETRATERATIO and POLL_QUESTION are administration rights only. */
  lemma AdministrationOnly(accountType: string)
    ensures Allows(accountType, SetRateRatio) <==> accountType == "administration"
    ensures Allows(accountType, PollQuestion) <==> accountType == "administration"
  {
  }

  /** INFORMATION is allowed for institution and administration only. */
  lemma InformationHolders(accountType: string)
    ensures Allows(accountType, Information) <==> accountType in {"institution", "administration"}
  {
  }

  /** No account type, listed or not, has PAYMENT, POLL_ANSWER or ACCOUNT_VALIDATION in its list. */
  lemma ExemptKindsUnlisted(accountType: string)
    ensures !Allows(accountType, Payment)
    ensures !Allows(accountType, PollAnswer)
    ensures !Allows(accountType, AccountValidation)
  {
  }

  /** An unknown account type is allowed nothing. */
  lemma UnknownTypeAllowsNothing(accountType: string, k: Kind)
    requires accountType !in AccountTypes
    ensures AllowedKinds(accountType) == None && !Allows(accountType, k)
  {
  }
}
