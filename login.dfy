/** The mock login (LoginForm.tsx): an email is mapped to one of three
    pharmacies by plain, case-sensitive substring tests in a fixed order,
    with a default. */
module Login {
  import opened Types
  import opened Text

  function Centrale(email: string): Pharmacy {
    Pharmacy("1", "Pharmacie Centrale", email, "123 Rue de la Santé, Paris")
  }

  function Marche(email: string): Pharmacy {
    Pharmacy("2", "Pharmacie du Marché", email, "456 Avenue des Roses, Lyon")
  }

  function Moderne(email: string): Pharmacy {
    Pharmacy("3", "Pharmacie Moderne", email, "789 Boulevard de la Liberté, Marseille")
  }

  /** The pharmacy a login with this email opens a session for. */
  function MockPharmacy(email: string): (p: Pharmacy)
    ensures p.email == email
    ensures p.id == "1" || p.id == "2" || p.id == "3"
  {
    if Includes(email, "centrale") then Centrale(email)
    else if Includes(email, "marche") then Marche(email)
    else if Includes(email, "moderne") then Moderne(email)
    else Centrale(email)
  }

  /** Which pharmacy is chosen, as conditions on the email: 'centrale' wins
      over 'marche', which wins over 'moderne'; anything else gets the default. */
  lemma MockPharmacyChoice(email: string)
    ensures MockPharmacy(email).id == "2" <==> !Includes(email, "centrale") && Includes(email, "marche")
    ensures MockPharmacy(email).id == "3" <==>
      !Includes(email, "centrale") && !Includes(email, "marche") && Includes(email, "moderne")
    ensures MockPharmacy(email).id == "1" <==>
      Includes(email, "centrale") || (!Includes(email, "marche") && !Includes(email, "moderne"))
    ensures MockPharmacy(email).id == "1" ==> MockPharmacy(email) == Centrale(email)
  {
  }

  /** Upper case is not folded: 'MARCHE' does not select the market pharmacy. */
  lemma UpperCaseIsNotFolded()
    ensures MockPharmacy("MARCHE") == Centrale("MARCHE")
  {
    IncludesOnlyOwnCharacters("MARCHE", "centrale", 'n');
    IncludesOnlyOwnCharacters("MARCHE", "marche", 'm');
    IncludesOnlyOwnCharacters("MARCHE", "moderne", 'm');
  }

  /** Accents are not stripped: 'marché' does not contain 'marche'. */
  lemma AccentIsNotStripped()
    ensures MockPharmacy("march" + "é@x.fr") == Centrale("march" + "é@x.fr")
  {
    IncludesOnlyOwnCharacters("march" + "é@x.fr", "centrale", 'n');
    IncludesOnlyOwnCharacters("march" + "é@x.fr", "marche", 'e');
    IncludesOnlyOwnCharacters("march" + "é@x.fr", "moderne", 'o');
  }

  datatype LoginField = Email | Password

  /** The login form component. `submittedEmail` is the address the pending
      timer callback will use: the value the form had when it was submitted. */
  class LoginForm {
    var email: string
    var password: string
    var isLoading: bool
    var submittedEmail: string

    constructor ()
      ensures email == "" && password == "" && !isLoading
    {
      email, password, isLoading, submittedEmail := "", "", false, "";
    }

    method HandleInputChange(field: LoginField, value: string)
      modifies this`email, this`password
      ensures field == Email ==> email == value && password == old(password)
      ensures field == Password ==> password == value && email == old(email)
    {
      match field
      case Email => email := value;
      case Password => password := value;
    }

    /** Submitting shows the busy state and starts the delayed login. */
    method HandleSubmit()
      modifies this`isLoading, this`submittedEmail
      ensures isLoading && submittedEmail == email
    {
      isLoading := true;
      submittedEmail := email;
    }

    /** The delayed part of the submit: choose the pharmacy for the submitted
      email, hand it to the login handler, and clear the busy state. */
    method CompleteLogin() returns (pharmacy: Pharmacy)
      modifies this`isLoading
      ensures pharmacy == MockPharmacy(submittedEmail) && !isLoading
    {
      pharmacy := MockPharmacy(submittedEmail);
      isLoading := false;
    }
  }
}
