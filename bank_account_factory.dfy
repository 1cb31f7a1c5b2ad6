/** The bank-account factory: a null or empty type yields null; otherwise
    the upper-cased type selects a personal, business or checking account
    by its one-letter code, and anything else is rejected with an
    `IllegalArgumentException` naming the original type. */
module BankAccountFactory {
  import opened Common

  datatype BankAccount = PersonalAccount | BusinessAccount | CheckingAccount

  /** The line `registerAccount` prints. */
  function RegisterAccount(a: BankAccount): string
  {
    match a
    case PersonalAccount => "Creating a personal account"
    case BusinessAccount => "Creating a business account"
    case CheckingAccount => "Creating a checking account"
  }

  /** The one-letter codes. */
  function Code(a: BankAccount): string
  {
    match a
    case PersonalAccount => "P"
    case BusinessAccount => "B"
    case CheckingAccount => "C"
  }

  /** `createAccount`; `Ok(None)` is a null result. */
  function CreateAccount(accountType: Option<string>): Result<Option<BankAccount>>
  {
    if accountType.None? || accountType.value == [] then Ok(None)
    else
      var t := accountType.value;
      match ToUpper(t)
      case "P" => Ok(Some(PersonalAccount))
      case "B" => Ok(Some(BusinessAccount))
      case "C" => Ok(Some(CheckingAccount))
      case _ => Err("Unknown account type " + t)
  }

  /** Null and the empty string give null, not an error. */
  lemma NullOrEmptyGivesNull(accountType: Option<string>)
    requires accountType.None? || accountType.value == []
    ensures CreateAccount(accountType) == Ok(None)
  {
  }

  /** A non-empty type yields account `a` exactly when it upper-cases to
      `a`'s code, and fails, naming the original text, exactly when it
      upper-cases to none of the codes. In particular only one-letter types
      are accepted. */
  lemma RecognisedIff(t: string, a: BankAccount)
    requires t != []
    ensures CreateAccount(Some(t)) == Ok(Some(a)) <==> ToUpper(t) == Code(a)
    ensures CreateAccount(Some(t)).Err? <==> ToUpper(t) !in {"P", "B", "C"}
    ensures CreateAccount(Some(t)).Err? ==> CreateAccount(Some(t)) == Err("Unknown account type " + t)
    ensures |t| > 1 ==> CreateAccount(Some(t)).Err?
  {
  }

  /** Only the upper-cased type matters. */
  lemma DependsOnlyOnUpperCase(t1: string, t2: string)
    requires ToUpper(t1) == ToUpper(t2)
    ensures CreateAccount(Some(t1)).Ok? == CreateAccount(Some(t2)).Ok?
    ensures CreateAccount(Some(t1)).Ok? ==> CreateAccount(Some(t1)) == CreateAccount(Some(t2))
  {
  }

  /** Both letter cases of each code are accepted; "personal" is not. */
  lemma Codes()
    ensures CreateAccount(Some("P")) == CreateAccount(Some("p")) == Ok(Some(PersonalAccount))
    ensures CreateAccount(Some("B")) == CreateAccount(Some("b")) == Ok(Some(BusinessAccount))
    ensures CreateAccount(Some("C")) == CreateAccount(Some("c")) == Ok(Some(CheckingAccount))
    ensures CreateAccount(Some("personal")) == Err("Unknown account type personal")
  {
    assert ToUpper("p") == "P" && ToUpper("P") == "P";
    assert ToUpper("b") == "B" && ToUpper("B") == "B";
    assert ToUpper("c") == "C" && ToUpper("C") == "C";
    assert |ToUpper("personal")| == 8;
  }
}
