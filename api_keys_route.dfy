/** The API-key page's create dialog: the expiry-duration parser and the
    submit handler that uses it. */
module ApiKeysRoute {
  import opened Wrappers
  import Strings

  const SecondsPerDay: nat := 86400
  const SecondsPerMonth: nat := 2592000
  const SecondsPerYear: nat := 31536000

  /** The seconds per unit letter; the match ignores case. */
  function UnitSeconds(u: char): Option<nat> {
    if u == 'd' || u == 'D' then Some(SecondsPerDay)
    else if u == 'm' || u == 'M' then Some(SecondsPerMonth)
    else if u == 'y' || u == 'Y' then Some(SecondsPerYear)
    else None
  }

  /** The input has the form: one or more decimal digits, then a unit letter. */
  predicate WellFormed(input: string) {
    |input| >= 2 && Strings.AllDigits(input[..|input| - 1]) && UnitSeconds(input[|input| - 1]).Some?
  }

  /** `parseExpiresIn`: the amount times the seconds of the unit, or
      nothing for an empty or malformed input. */
  function ParseExpiresIn(input: string): (r: Option<nat>)
    ensures r.Some? <==> WellFormed(input)
    ensures r.Some? ==> r.value == Strings.ParseDigits(input[..|input| - 1]) * UnitSeconds(input[|input| - 1]).value
  {
    if input == "" then None
    else if !WellFormed(input) then None
    else Some(Strings.ParseDigits(input[..|input| - 1]) * UnitSeconds(input[|input| - 1]).value)
  }

  /** A rendered amount with a unit parses to that many units. */
  lemma ParseRendered(n: nat, u: char)
    requires UnitSeconds(u).Some?
    ensures ParseExpiresIn(Strings.NatToString(n) + [u]) == Some(n * UnitSeconds(u).value)
  {
    var s := Strings.NatToString(n) + [u];
    assert s[..|s| - 1] == Strings.NatToString(n);
    Strings.ParseNatToString(n);
  }

  /** The unit's case does not matter: "7D" is "7d". */
  lemma UnitCaseIgnored(amount: string)
    ensures ParseExpiresIn(amount + "D") == ParseExpiresIn(amount + "d")
    ensures ParseExpiresIn(amount + "M") == ParseExpiresIn(amount + "m")
    ensures ParseExpiresIn(amount + "Y") == ParseExpiresIn(amount + "y")
  {
    assert (amount + "D")[..|amount|] == amount && (amount + "d")[..|amount|] == amount;
    assert (amount + "M")[..|amount|] == amount && (amount + "m")[..|amount|] == amount;
    assert (amount + "Y")[..|amount|] == amount && (amount + "y")[..|amount|] == amount;
  }

  /** Leading zeros are harmless: "007d" is "7d". */
  lemma LeadingZeroHarmless(input: string)
    requires WellFormed(input)
    ensures ParseExpiresIn("0" + input) == ParseExpiresIn(input)
  {
    var amount := input[..|input| - 1];
    var z := "0" + input;
    assert z[..|z| - 1] == "0" + amount;
    assert z[|z| - 1] == input[|input| - 1];
    Strings.ParseLeadingZero(amount);
  }

  /** For a fixed unit, a larger amount gives a strictly longer duration. */
  lemma StrictlyIncreasing(a: nat, b: nat, u: char)
    requires a < b && UnitSeconds(u).Some?
    ensures ParseExpiresIn(Strings.NatToString(a) + [u]).value < ParseExpiresIn(Strings.NatToString(b) + [u]).value
  {
    ParseRendered(a, u);
    ParseRendered(b, u);
    MulStrict(a, b, UnitSeconds(u).value);
  }

  lemma MulStrict(a: nat, b: nat, k: nat)
    requires a < b && k > 0
    ensures a * k < b * k
  {
  }

  /** The expiry attached to the create request: only a truthy (non-zero) parse. */
  function RequestExpiry(input: string): (e: Option<nat>)
    ensures e.Some? <==> ParseExpiresIn(input).Some? && ParseExpiresIn(input).value != 0
    ensures e.Some? ==> e.value > 0 && e == ParseExpiresIn(input)
  {
    match ParseExpiresIn(input)
    case Some(v) => if v != 0 then Some(v) else None
    case None => None
  }

  /** A zero amount sets no expiry, whatever the unit and however many zeros. */
  lemma ZeroAmountNoExpiry(input: string)
    requires WellFormed(input)
    requires forall i :: 0 <= i < |input| - 1 ==> input[i] == '0'
    ensures RequestExpiry(input) == None
  {
    ZeroDigits(input[..|input| - 1]);
  }

  lemma {:induction false} ZeroDigits(s: string)
    requires forall i :: 0 <= i < |s| ==> s[i] == '0'
    ensures Strings.AllDigits(s) && Strings.ParseDigits(s) == 0
    decreases |s|
  {
    if |s| > 0 {
      ZeroDigits(s[..|s| - 1]);
    }
  }

  /** The request the create mutation receives. */
  datatype CreateRequest = CreateRequest(name: string, expiresIn: Option<nat>)

  /** The create dialog's state. */
  class CreateApiKeyDialog {
    var open: bool
    var name: string
    var expiresInInput: string
    var createdKey: Option<string>

    constructor ()
      ensures !open && name == "" && expiresInInput == "" && createdKey == None
    {
      open, name, expiresInInput, createdKey := false, "", "", None;
    }

    /** Typing a name. */
    method EditName(v: string)
      modifies this
      ensures name == v
      ensures open == old(open) && expiresInInput == old(expiresInInput) && createdKey == old(createdKey)
    {
      name := v;
    }

    /** Typing an expiry. */
    method EditExpiresIn(v: string)
      modifies this
      ensures expiresInInput == v
      ensures open == old(open) && name == old(name) && createdKey == old(createdKey)
    {
      expiresInInput := v;
    }

    /** `handleSubmit`: sends the name, with the parsed expiry when it is
        truthy. `created` is the new key, or `None` when the mutation
        rejects, which leaves the dialog as it was. On success the key is
        shown and both inputs are cleared. */
    method HandleSubmit(created: Option<string>) returns (request: CreateRequest)
      modifies this
      ensures request == CreateRequest(old(name), RequestExpiry(old(expiresInInput)))
      ensures open == old(open)
      ensures created.Some? ==> createdKey == created && name == "" && expiresInInput == ""
      ensures created.None? ==>
        createdKey == old(createdKey) && name == old(name) && expiresInInput == old(expiresInInput)
    {
      var expiresIn := ParseExpiresIn(expiresInInput);
      request := CreateRequest(name, None);
      if expiresIn.Some? && expiresIn.value != 0 {
        request := request.(expiresIn := expiresIn);
      }
      if created.None? {
        return;
      }
      createdKey := created;
      name := "";
      expiresInInput := "";
    }

    /** `handleClose` ("Done"): closes the dialog and forgets the key. */
    method HandleClose()
      modifies this
      ensures !open && createdKey == None
      ensures name == old(name) && expiresInInput == old(expiresInInput)
    {
      open := false;
      createdKey := None;
    }
  }
}
