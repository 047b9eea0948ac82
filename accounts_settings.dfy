/** The linked-accounts section of the settings page: the password
    account, the social accounts, their display names and the providers
    still offered for connection. */
module AccountsSettings {
  import opened Wrappers

  datatype Account = Account(id: string, providerId: string, accountId: string)

  const Credential: string := "credential"

  /** The known providers, as id and display name, in table order. */
  const ProviderNames: seq<(string, string)> := [
    ("google", "Google"), ("github", "GitHub"), ("facebook", "Facebook"),
    ("twitter", "Twitter"), ("discord", "Discord"), ("microsoft", "Microsoft")]

  /** `accounts?.find(...)`: the first credential account. */
  function PasswordAccount(accounts: Option<seq<Account>>): (r: Option<Account>)
    ensures r.Some? ==> accounts.Some? && r.value in accounts.value && r.value.providerId == Credential
    ensures r.Some? ==>
      exists i :: 0 <= i < |accounts.value| && accounts.value[i] == r.value && (forall j :: 0 <= j < i ==> accounts.value[j].providerId != Credential)
    ensures r.None? ==> accounts.None? || forall a :: a in accounts.value ==> a.providerId != Credential
  {
    match accounts
    case None => None
    case Some(xs) => FirstCredential(xs)
  }

  /** The first credential account: every account before it is social. */
  function FirstCredential(xs: seq<Account>): (r: Option<Account>)
    ensures r.Some? ==> r.value in xs && r.value.providerId == Credential
    ensures r.Some? ==>
      exists i :: 0 <= i < |xs| && xs[i] == r.value && (forall j :: 0 <= j < i ==> xs[j].providerId != Credential)
    ensures r.None? ==> forall a :: a in xs ==> a.providerId != Credential
  {
    if |xs| == 0 then None
    else if xs[0].providerId == Credential then Some(xs[0])
    else
      var r := FirstCredential(xs[1..]);
      if r.Some? then
        var i :| 0 <= i < |xs[1..]| && xs[1..][i] == r.value &&
          forall j :: 0 <= j < i ==> xs[1..][j].providerId != Credential;
        assert xs[i + 1] == r.value;
        assert forall j :: 1 <= j < i + 1 ==> xs[j] == xs[1..][j - 1];
        r
      else r
  }

  /** The accounts of one kind, in their original order. */
  function OfKind(xs: seq<Account>, credential: bool): (r: seq<Account>)
    ensures forall a :: a in r <==> a in xs && (a.providerId == Credential) == credential
    ensures |r| <= |xs|
  {
    if |xs| == 0 then []
    else (if (xs[0].providerId == Credential) == credential then [xs[0]] else []) + OfKind(xs[1..], credential)
  }

  /** Selecting one kind keeps the order of the accounts: a single account
      is kept exactly when it is of that kind, and selecting from two parts
      is selecting from each. */
  lemma OfKindOrder(a: seq<Account>, b: seq<Account>, credential: bool)
    ensures OfKind([], credential) == []
    ensures forall x :: OfKind([x], credential) == if (x.providerId == Credential) == credential then [x] else []
    ensures OfKind(a + b, credential) == OfKind(a, credential) + OfKind(b, credential)
  {
    forall x ensures OfKind([x], credential) == if (x.providerId == Credential) == credential then [x] else [] {
      OfKindOne(x, credential);
    }
    OfKindConcat(a, b, credential);
  }

  lemma OfKindOne(x: Account, credential: bool)
    ensures OfKind([x], credential) == if (x.providerId == Credential) == credential then [x] else []
  {
    assert [x][1..] == [];
  }

  lemma OfKindCons(x: Account, y: seq<Account>, credential: bool)
    ensures OfKind([x] + y, credential) == (if (x.providerId == Credential) == credential then [x] else []) + OfKind(y, credential)
  {
    assert ([x] + y)[0] == x;
    assert ([x] + y)[1..] == y;
  }

  lemma {:induction false} OfKindConcat(a: seq<Account>, b: seq<Account>, credential: bool)
    ensures OfKind(a + b, credential) == OfKind(a, credential) + OfKind(b, credential)
    decreases |a|
  {
    if |a| == 0 {
      assert a + b == b;
    } else {
      var x, t := a[0], a[1..];
      var h := if (x.providerId == Credential) == credential then [x] else [];
      assert a == [x] + t;
      assert a + b == [x] + (t + b);
      calc {
        OfKind(a + b, credential);
        { OfKindCons(x, t + b, credential); }
        h + OfKind(t + b, credential);
        { OfKindConcat(t, b, credential); }
        h + (OfKind(t, credential) + OfKind(b, credential));
        (h + OfKind(t, credential)) + OfKind(b, credential);
        { OfKindCons(x, t, credential); }
        OfKind(a, credential) + OfKind(b, credential);
      }
    }
  }

  /** `accounts?.filter(...) || []`: the non-credential accounts in order. */
  function SocialAccounts(accounts: Option<seq<Account>>): (r: seq<Account>)
    ensures accounts.None? ==> r == []
    ensures accounts.Some? ==> forall a :: a in r <==> a in accounts.value && a.providerId != Credential
  {
    match accounts
    case None => []
    case Some(xs) => OfKind(xs, false)
  }

  /** The social accounts keep the order of the accounts. */
  lemma SocialAccountsInOrder(a: seq<Account>, b: seq<Account>)
    ensures forall x :: SocialAccounts(Some([x])) == if x.providerId == Credential then [] else [x]
    ensures SocialAccounts(Some(a + b)) == SocialAccounts(Some(a)) + SocialAccounts(Some(b))
  {
    OfKindOrder(a, b, false);
  }

  /** Every account is either social or a credential account; of the
      credential accounts only the first is shown as the password account,
      the others are dropped. */
  lemma {:induction false} Partition(xs: seq<Account>)
    ensures multiset(OfKind(xs, false)) + multiset(OfKind(xs, true)) == multiset(xs)
    ensures FirstCredential(xs) == if OfKind(xs, true) == [] then None else Some(OfKind(xs, true)[0])
  {
    KindsCoverAll(xs);
    FirstOfKind(xs);
  }

  lemma {:induction false} KindsCoverAll(xs: seq<Account>)
    ensures multiset(OfKind(xs, false)) + multiset(OfKind(xs, true)) == multiset(xs)
    decreases |xs|
  {
    if |xs| > 0 {
      var h, t := xs[0], xs[1..];
      KindsCoverAll(t);
      var isCred := h.providerId == Credential;
      assert OfKind(xs, false) == (if isCred then [] else [h]) + OfKind(t, false);
      assert OfKind(xs, true) == (if isCred then [h] else []) + OfKind(t, true);
      assert xs == [h] + t;
    }
  }

  lemma {:induction false} FirstOfKind(xs: seq<Account>)
    ensures FirstCredential(xs) == if OfKind(xs, true) == [] then None else Some(OfKind(xs, true)[0])
    decreases |xs|
  {
    if |xs| > 0 {
      FirstOfKind(xs[1..]);
      if xs[0].providerId == Credential {
        assert OfKind(xs, true) == [xs[0]] + OfKind(xs[1..], true);
      } else {
        assert OfKind(xs, true) == OfKind(xs[1..], true);
      }
    }
  }

  /** The display name of a provider: its table name, or the id itself. */
  function ProviderName(providerId: string): (name: string)
    ensures (exists i :: 0 <= i < |ProviderNames| && ProviderNames[i].0 == providerId) ==>
      exists i :: 0 <= i < |ProviderNames| && ProviderNames[i] == (providerId, name)
    ensures (forall i :: 0 <= i < |ProviderNames| ==> ProviderNames[i].0 != providerId) ==> name == providerId
  {
    LookUp(ProviderNames, providerId).GetOr(providerId)
  }

  function LookUp(table: seq<(string, string)>, key: string): (r: Option<string>)
    ensures r.Some? ==> exists i :: 0 <= i < |table| && table[i] == (key, r.value)
    ensures r.None? ==> forall i :: 0 <= i < |table| ==> table[i].0 != key
  {
    if |table| == 0 then None
    else if table[0].0 == key then Some(table[0].1)
    else LookUp(table[1..], key)
  }

  /** Some social account uses the provider. */
  predicate Connected(socials: seq<Account>, providerId: string) {
    exists a :: a in socials && a.providerId == providerId
  }

  /** The providers of `table` not yet connected, in table order. */
  function Unconnected(table: seq<(string, string)>, socials: seq<Account>): (r: seq<string>)
    ensures forall p :: p in r <==> (exists i :: 0 <= i < |table| && table[i].0 == p) && !Connected(socials, p)
    ensures |r| <= |table|
  {
    if |table| == 0 then []
    else
      var rest := Unconnected(table[1..], socials);
      assert forall i :: 1 <= i < |table| ==> table[i] == table[1..][i - 1];
      Offer(socials, table[0].0) + rest
  }

  /** The "Connect" buttons. */
  function ConnectableProviders(socials: seq<Account>): (r: seq<string>)
    ensures forall p :: p in r <==> (exists i :: 0 <= i < |ProviderNames| && ProviderNames[i].0 == p) && !Connected(socials, p)
  {
    Unconnected(ProviderNames, socials)
  }

  /** Leaving out connected providers keeps table order: a one-entry table
      offers its provider exactly when it is not connected, and two parts of
      a table offer what each part offers, in turn. */
  lemma UnconnectedOrder(a: seq<(string, string)>, b: seq<(string, string)>, socials: seq<Account>)
    ensures Unconnected([], socials) == []
    ensures forall e :: Unconnected([e], socials) == Offer(socials, e.0)
    ensures Unconnected(a + b, socials) == Unconnected(a, socials) + Unconnected(b, socials)
  {
    forall e ensures Unconnected([e], socials) == Offer(socials, e.0) {
      UnconnectedOne(e, socials);
    }
    UnconnectedConcat(a, b, socials);
  }

  lemma UnconnectedOne(e: (string, string), socials: seq<Account>)
    ensures Unconnected([e], socials) == Offer(socials, e.0)
  {
    assert [e][1..] == [];
  }

  lemma UnconnectedCons(e: (string, string), y: seq<(string, string)>, socials: seq<Account>)
    ensures Unconnected([e] + y, socials) == Offer(socials, e.0) + Unconnected(y, socials)
  {
    assert ([e] + y)[0] == e;
    assert ([e] + y)[1..] == y;
  }

  lemma {:induction false} UnconnectedConcat(a: seq<(string, string)>, b: seq<(string, string)>, socials: seq<Account>)
    ensures Unconnected(a + b, socials) == Unconnected(a, socials) + Unconnected(b, socials)
    decreases |a|
  {
    if |a| == 0 {
      assert a + b == b;
    } else {
      var e, t := a[0], a[1..];
      var h := Offer(socials, e.0);
      assert a == [e] + t;
      assert a + b == [e] + (t + b);
      calc {
        Unconnected(a + b, socials);
        { UnconnectedCons(e, t + b, socials); }
        h + Unconnected(t + b, socials);
        { UnconnectedConcat(t, b, socials); }
        h + (Unconnected(t, socials) + Unconnected(b, socials));
        (h + Unconnected(t, socials)) + Unconnected(b, socials);
        { UnconnectedCons(e, t, socials); }
        Unconnected(a, socials) + Unconnected(b, socials);
      }
    }
  }

  /** The provider offered if not yet connected. */
  function Offer(socials: seq<Account>, id: string): seq<string> {
    if Connected(socials, id) then [] else [id]
  }

  /** The "Connect" buttons in full: each known provider not yet connected,
      in the order Google, GitHub, Facebook, Twitter, Discord, Microsoft. */
  lemma ConnectableInTableOrder(socials: seq<Account>)
    ensures ConnectableProviders(socials) ==
      Offer(socials, "google") + Offer(socials, "github") + Offer(socials, "facebook") +
      Offer(socials, "twitter") + Offer(socials, "discord") + Offer(socials, "microsoft")
  {
    TableOffers(ProviderNames, socials);
  }

  lemma TableOffers(t: seq<(string, string)>, socials: seq<Account>)
    requires t == ProviderNames
    ensures Unconnected(t, socials) ==
      Offer(socials, "google") + Offer(socials, "github") + Offer(socials, "facebook") +
      Offer(socials, "twitter") + Offer(socials, "discord") + Offer(socials, "microsoft")
  {
    var ids := ["google", "github", "facebook", "twitter", "discord", "microsoft"];
    assert forall k :: 0 <= k < 6 ==> t[k].0 == ids[k];
    assert t == [t[0]] + [t[1]] + [t[2]] + [t[3]] + [t[4]] + [t[5]];
    UnconnectedOrder([t[0]] + [t[1]] + [t[2]] + [t[3]] + [t[4]], [t[5]], socials);
    UnconnectedOrder([t[0]] + [t[1]] + [t[2]] + [t[3]], [t[4]], socials);
    UnconnectedOrder([t[0]] + [t[1]] + [t[2]], [t[3]], socials);
    UnconnectedOrder([t[0]] + [t[1]], [t[2]], socials);
    UnconnectedOrder([t[0]], [t[1]], socials);
  }

  /** With no social account every known provider is offered, in table order. */
  lemma {:induction false} AllOfferedWhenNoneConnected(table: seq<(string, string)>)
    ensures Unconnected(table, []) == Ids(table)
    decreases |table|
  {
    if |table| > 0 {
      AllOfferedWhenNoneConnected(table[1..]);
      assert !Connected([], table[0].0);
    }
  }

  /** The ids of a table, in order. */
  function Ids(table: seq<(string, string)>): (r: seq<string>)
    ensures |r| == |table| && forall i :: 0 <= i < |table| ==> r[i] == table[i].0
  {
    if |table| == 0 then [] else [table[0].0] + Ids(table[1..])
  }
}
