/** The store of login accounts: a list searched by account id and updated in place. */
module Store {
  import opened Wrappers
  import opened Text

  datatype Account = Account(
    userId: string,
    label_: string,
    token: string,
    refreshToken: string,
    deviceId: string,
    expireAtMs: int,
    obtainedAtMs: int)

  // ----- Identity -----

  predicate HasUser(a: Account) {
    TrimSpace(a.userId) != ""
  }

  /** A token's head and tail; short tokens stand for themselves. */
  function Fingerprint(token: string): string {
    if |token| <= 12 then token else token[..6] + token[|token| - 4..]
  }

  /** The user id if there is one, otherwise a fingerprint of the token. */
  function AccountId(a: Account): (id: string)
    ensures id != ""
    ensures HasUser(a) <==> "uid:" <= id
  {
    if HasUser(a) then "uid:" + TrimSpace(a.userId)
    else
      var id := "tok:" + Fingerprint(a.token);
      assert id[0] == 't' && "uid:"[0] == 'u';
      id
  }

  function IdsOf(accounts: seq<Account>): seq<string> {
    seq(|accounts|, k requires 0 <= k < |accounts| => AccountId(accounts[k]))
  }

  /** Position of the first account with this id; the length of the list if there is none. */
  function Position(accounts: seq<Account>, id: string): (k: nat)
    ensures k <= |accounts|
    ensures k < |accounts| ==> AccountId(accounts[k]) == id
    ensures forall j :: 0 <= j < k ==> AccountId(accounts[j]) != id
  {
    if accounts == [] || AccountId(accounts[0]) == id then 0 else 1 + Position(accounts[1..], id)
  }

  // ----- Operations on the list -----

  datatype Change =
    | Upsert(account: Account, nowMs: int)
    | UpdateTokens(id: string, token: string, refresh: string, expireAtMs: int)
    | EnsureDevice(id: string, random: Option<string>)

  /** What `Upsert` writes: the obtained time is filled in, and a missing label is kept from the old entry. */
  function Completed(accounts: seq<Account>, a: Account, nowMs: int): (b: Account)
    ensures AccountId(b) == AccountId(a) && b.token == a.token
  {
    var b := if a.obtainedAtMs == 0 then a.(obtainedAtMs := nowMs) else a;
    var k := Position(accounts, AccountId(a));
    if k < |accounts| && b.label_ == "" then b.(label_ := accounts[k].label_) else b
  }

  function WithTokens(a: Account, token: string, refresh: string, expireAtMs: int): Account {
    a.(token := token, refreshToken := if refresh != "" then refresh else a.refreshToken, expireAtMs := expireAtMs)
  }

  function After(accounts: seq<Account>, c: Change): seq<Account> {
    match c
    case Upsert(a, nowMs) =>
      if TrimSpace(a.token) == "" then accounts
      else
        var k, b := Position(accounts, AccountId(a)), Completed(accounts, a, nowMs);
        if k < |accounts| then accounts[k := b] else accounts + [b]
    case UpdateTokens(id, token, refresh, expireAtMs) =>
      var k := Position(accounts, id);
      if k < |accounts| then accounts[k := WithTokens(accounts[k], token, refresh, expireAtMs)] else accounts
    case EnsureDevice(id, random) =>
      var k := Position(accounts, id);
      if k < |accounts| && accounts[k].deviceId == "" && random.Some?
      then accounts[k := accounts[k].(deviceId := random.value)] else accounts
  }

  function AfterAll(accounts: seq<Account>, changes: seq<Change>): seq<Account>
    decreases |changes|
  {
    if changes == [] then accounts else AfterAll(After(accounts, changes[0]), changes[1..])
  }

  // ----- Properties -----

  /** No two accounts with a user have the same id. */
  ghost predicate UsersDistinct(accounts: seq<Account>) {
    forall i, j :: 0 <= i < j < |accounts| && HasUser(accounts[i]) && HasUser(accounts[j]) ==>
      AccountId(accounts[i]) != AccountId(accounts[j])
  }

  /** A refreshed token leaves the account's id alone exactly if there is a user or the fingerprint is the same. */
  lemma RefreshKeepsId(a: Account, token: string, refresh: string, expireAtMs: int)
    ensures AccountId(WithTokens(a, token, refresh, expireAtMs)) == AccountId(a)
            <==> HasUser(a) || Fingerprint(token) == Fingerprint(a.token)
  {
    hide Fingerprint, TrimSpace;
    if !HasUser(a) {
      var x, y := Fingerprint(token), Fingerprint(a.token);
      assert ("tok:" + x)[4..] == x && ("tok:" + y)[4..] == y;
    }
  }

  /** A change touches at most the first account with its id; all the others stay as they are, in place. */
  lemma ChangesOne(accounts: seq<Account>, c: Change)
    ensures var after := After(accounts, c);
            var id := match c case Upsert(a, _) => AccountId(a) case UpdateTokens(x, _, _,
                  _) => x case EnsureDevice(x, _) => x;
            var k := Position(accounts, id);
      && |accounts| <= |after| <= |accounts| + 1
      && (forall j :: 0 <= j < |accounts| && j != k ==> after[j] == accounts[j])
      && (|after| == |accounts| + 1 <==> c.Upsert? && k == |accounts| && TrimSpace(c.account.token) != "")
  {
    hide TrimSpace, AccountId;
  }

  lemma AfterDistinct(accounts: seq<Account>, c: Change)
    requires UsersDistinct(accounts)
    ensures UsersDistinct(After(accounts, c))
  {
    hide TrimSpace, Fingerprint;
    match c {
      case Upsert(a, nowMs) =>
      case UpdateTokens(id, token, refresh, expireAtMs) =>
        var k := Position(accounts, id);
        if k < |accounts| {
          RefreshKeepsId(accounts[k], token, refresh, expireAtMs);
        }
      case EnsureDevice(_, _) =>
    }
    hide Position, AccountId, HasUser, Completed;
  }

  /** Over any run of changes, accounts with a user keep pairwise distinct ids. */
  lemma {:induction false} RunDistinct(accounts: seq<Account>, changes: seq<Change>)
    requires UsersDistinct(accounts)
    ensures UsersDistinct(AfterAll(accounts, changes))
    decreases |changes|
  {
    if changes != [] {
      AfterDistinct(accounts, changes[0]);
      RunDistinct(After(accounts, changes[0]), changes[1..]);
      hide After, UsersDistinct;
    }
  }

  // ----- The store itself -----

  /** What reading the account file from disk can give; a store without a file has nothing to read. */
  datatype DiskRead =
    | NoFile
    | Missing
    | Blank
    | Unreadable(msg: string)
    | Malformed(msg: string)
    | Parsed(accounts: seq<Account>)

  predicate Succeeds(read: DiskRead) {
    !read.Unreadable? && !read.Malformed?
  }

  function Reloaded(accounts: seq<Account>, read: DiskRead): seq<Account> {
    match read
    case NoFile => accounts
    case Missing => []
    case Blank => []
    case Unreadable(_) => accounts
    case Malformed(_) => accounts
    case Parsed(list) => list
  }

  class AccountStore {
    var accounts: seq<Account>

    constructor (accounts: seq<Account>)
      ensures this.accounts == accounts
    {
      this.accounts := accounts;
    }

    /** Replaces the list by what is on disk; without a file, or if it cannot be read or parsed, nothing changes. */
    method Reload(read: DiskRead) returns (ok: bool)
      modifies this
      ensures accounts == Reloaded(old(accounts), read)
      ensures ok <==> Succeeds(read)
    {
      match read {
        case NoFile =>
          return true;
        case Missing =>
          accounts := [];
        case Blank =>
          accounts := [];
        case Unreadable(_) =>
          return false;
        case Malformed(_) =>
          return false;
        case Parsed(list) =>
          accounts := list;
      }
      return true;
    }

    method IDs() returns (out: seq<string>)
      ensures out == IdsOf(accounts)
    {
      out := [];
      for k := 0 to |accounts|
        invariant out == IdsOf(accounts)[..k]
      {
        out := out + [AccountId(accounts[k])];
      }
    }

    /** The first account with this id. */
    method Find(id: string) returns (k: nat)
      ensures k == Position(accounts, id)
    {
      k := 0;
      assert accounts[0..] == accounts;
      while k < |accounts|
        invariant k <= |accounts|
        invariant Position(accounts, id) == k + Position(accounts[k..], id)
      {
        assert accounts[k..][1..] == accounts[k + 1..] && accounts[k..][0] == accounts[k];
        if AccountId(accounts[k]) == id {
          return;
        }
        k := k + 1;
      }
      assert accounts[k..] == [];
    }

    method Get(id: string) returns (a: Option<Account>)
      ensures a == if Position(accounts, id) < |accounts| then Some(accounts[Position(accounts, id)]) else None
    {
      var k := Find(id);
      return if k < |accounts| then Some(accounts[k]) else None;
    }

    method Upsert(a: Account, nowMs: int) returns (ok: bool)
      modifies this
      ensures accounts == After(old(accounts), Change.Upsert(a, nowMs))
      ensures ok <==> TrimSpace(a.token) != ""
    {
      if TrimSpace(a.token) == "" {
        return false;
      }
      var b := a;
      if b.obtainedAtMs == 0 {
        b := b.(obtainedAtMs := nowMs);
      }
      var k := Find(AccountId(a));
      if k < |accounts| {
        if b.label_ == "" {
          b := b.(label_ := accounts[k].label_);
        }
        accounts := accounts[k := b];
      } else {
        accounts := accounts + [b];
      }
      return true;
    }

    method UpdateTokens(id: string, token: string, refresh: string, expireAtMs: int) returns (ok: bool)
      modifies this
      ensures accounts == After(old(accounts), Change.UpdateTokens(id, token, refresh, expireAtMs))
      ensures ok <==> Position(old(accounts), id) < |old(accounts)|
    {
      var k := Find(id);
      if k == |accounts| {
        return false;
      }
      var a := accounts[k];
      a := a.(token := token);
      if refresh != "" {
        a := a.(refreshToken := refresh);
      }
      a := a.(expireAtMs := expireAtMs);
      accounts := accounts[k := a];
      return true;
    }

    /** The account's device id, generated and kept if it has none; "" if that is not possible. */
    method EnsureDeviceID(id: string, random: Option<string>) returns (dev: string)
      modifies this
      ensures accounts == After(old(accounts), EnsureDevice(id, random))
      ensures var k := Position(accounts, id);
              dev == if k < |accounts| then accounts[k].deviceId else ""
    {
      var k := Find(id);
      if k == |accounts| {
        return "";
      }
      if accounts[k].deviceId != "" {
        return accounts[k].deviceId;
      }
      if random == None {
        return "";
      }
      ghost var before := accounts;
      accounts := accounts[k := accounts[k].(deviceId := random.value)];
      SamePosition(before, accounts, id);
      return random.value;
    }

    /** Any of the three. */
    method Apply(c: Change)
      modifies this
      ensures accounts == After(old(accounts), c)
    {
      match c {
        case Upsert(a, nowMs) => var _ := Upsert(a, nowMs);
        case UpdateTokens(id, token, refresh, expireAtMs) => var _ := UpdateTokens(id, token, refresh, expireAtMs);
        case EnsureDevice(id, random) => var _ := EnsureDeviceID(id, random);
      }
    }
  }

  lemma {:induction false} SamePosition(a: seq<Account>, b: seq<Account>, id: string)
    requires |a| == |b| && forall j :: 0 <= j < |a| ==> AccountId(a[j]) == AccountId(b[j])
    ensures Position(a, id) == Position(b, id)
  {
    hide AccountId;
    if a != [] {
      SamePosition(a[1..], b[1..], id);
    }
  }

  // ----- The token of an account -----

  /** What refreshing a token with the login service gives. */
  datatype RefreshOutcome = Refreshed(token: string, refresh: string, expireAtMs: int) | RefreshFailed(msg: string)

  /** The inputs of asking for a token: the clock, what a refresh would give, and a random device id. */
  datatype Ask = Ask(nowMs: int, outcome: RefreshOutcome, random: Option<string>)

  datatype TokenResult = Token(token: string, device: string) | NoToken(msg: string)

  /** Usable now: a token that is not blank and does not expire within a minute. */
  predicate Usable(a: Account, nowMs: int) {
    TrimSpace(a.token) != "" && (a.expireAtMs == 0 || nowMs < a.expireAtMs - 60_000)
  }

  /**
   The list after asking for a token: an unusable token is replaced if the refresh succeeds,
   and a device id is ensured.
   */
  function AfterToken(accounts: seq<Account>, id: string, ask: Ask): seq<Account> {
    var k := Position(accounts, id);
    if k == |accounts| then accounts
    else if Usable(accounts[k], ask.nowMs) then After(accounts, EnsureDevice(id, ask.random))
    else
      match ask.outcome
      case Refreshed(token, refresh, expireAtMs) =>
        After(After(accounts, UpdateTokens(id, token, refresh, expireAtMs)), EnsureDevice(id, ask.random))
      case RefreshFailed(_) =>
        if accounts[k].token != "" then After(accounts, EnsureDevice(id, ask.random)) else accounts
  }

  /** Why there is no token for an account: it is gone, or it has none and cannot get one. */
  function TokenError(accounts: seq<Account>, id: string, ask: Ask): Option<string> {
    var k := Position(accounts, id);
    if k == |accounts| then Some("account gone: " + id)
    else if Usable(accounts[k], ask.nowMs) || ask.outcome.Refreshed? || accounts[k].token != "" then None
    else Some("token expired and refresh failed: " + ask.outcome.msg)
  }

  /** The token for an account: its own if usable, else a refreshed one, else its own all the same. */
  function TokenGiven(accounts: seq<Account>, id: string, ask: Ask): string
    requires Position(accounts, id) < |accounts|
  {
    var a := accounts[Position(accounts, id)];
    if !Usable(a, ask.nowMs) && ask.outcome.Refreshed? then ask.outcome.token else a.token
  }

  /** A usable token as it is, else a refreshed one, else the old one on the chance that it still works. */
  method TokenFor(store: AccountStore, id: string, ask: Ask) returns (r: TokenResult)
    modifies store
    ensures store.accounts == AfterToken(old(store.accounts), id, ask)
    ensures match TokenError(old(store.accounts), id, ask)
            case Some(msg) => r == NoToken(msg)
            case None =>
              && r.Token? && Position(old(store.accounts), id) < |old(store.accounts)|
              && r.token == TokenGiven(old(store.accounts), id, ask)
              && var now, j := store.accounts, Position(store.accounts, id);
                 r.device == if j < |now| then now[j].deviceId else ""
  {
    var acc := store.Get(id);
    if acc == None {
      return NoToken("account gone: " + id);
    }
    if Usable(acc.value, ask.nowMs) {
      var dev := store.EnsureDeviceID(id, ask.random);
      return Token(acc.value.token, dev);
    }
    match ask.outcome {
      case RefreshFailed(msg) =>
        if acc.value.token != "" {
          var dev := store.EnsureDeviceID(id, ask.random);
          return Token(acc.value.token, dev);
        }
        return NoToken("token expired and refresh failed: " + msg);
      case Refreshed(token, refresh, expireAtMs) =>
        var _ := store.UpdateTokens(id, token, refresh, expireAtMs);
        var dev := store.EnsureDeviceID(id, ask.random);
        return Token(token, dev);
    }
  }

  lemma DeviceKeepsIds(accounts: seq<Account>, id: string, random: Option<string>)
    ensures var after := After(accounts, EnsureDevice(id, random));
            IdsOf(after) == IdsOf(accounts) && Position(after, id) == Position(accounts, id)
  {
    var after := After(accounts, EnsureDevice(id, random));
    forall j | 0 <= j < |accounts| ensures AccountId(after[j]) == AccountId(accounts[j]) {
    }
    hide AccountId, Position, After;
    SamePosition(accounts, after, id);
    assert IdsOf(after) == IdsOf(accounts);
  }

  lemma RefreshKeepsIds(accounts: seq<Account>, id: string, token: string, refresh: string, expireAtMs: int)
    requires "uid:" <= id
    ensures var after := After(accounts, UpdateTokens(id, token, refresh, expireAtMs));
            IdsOf(after) == IdsOf(accounts) && Position(after, id) == Position(accounts, id)
  {
    var after, k := After(accounts, UpdateTokens(id, token, refresh, expireAtMs)), Position(accounts, id);
    if k < |accounts| {
      RefreshKeepsId(accounts[k], token, refresh, expireAtMs);
    }
    forall j | 0 <= j < |accounts| ensures AccountId(after[j]) == AccountId(accounts[j]) {
    }
    hide AccountId, Position, After, WithTokens;
    SamePosition(accounts, after, id);
    assert IdsOf(after) == IdsOf(accounts);
  }

  /** Asking for the token of an account with a user never loses the account, and keeps users distinct. */
  lemma TokenKeepsUsers(accounts: seq<Account>, id: string, ask: Ask)
    requires UsersDistinct(accounts)
    ensures var after := AfterToken(accounts, id, ask);
      && UsersDistinct(after)
      && ("uid:" <= id ==> IdsOf(after) == IdsOf(accounts) && Position(after, id) == Position(accounts, id))
  {
    hide After, AccountId, UsersDistinct, Usable, Position, IdsOf;
    AfterDistinct(accounts, EnsureDevice(id, ask.random));
    DeviceKeepsIds(accounts, id, ask.random);
    if ask.outcome.Refreshed? {
      var refreshed := After(accounts, UpdateTokens(id, ask.outcome.token, ask.outcome.refresh,
                                                    ask.outcome.expireAtMs));
      AfterDistinct(accounts, UpdateTokens(id, ask.outcome.token, ask.outcome.refresh, ask.outcome.expireAtMs));
      AfterDistinct(refreshed, EnsureDevice(id, ask.random));
      DeviceKeepsIds(refreshed, id, ask.random);
      if "uid:" <= id {
        RefreshKeepsIds(accounts, id, ask.outcome.token, ask.outcome.refresh, ask.outcome.expireAtMs);
      }
    }
  }
}
