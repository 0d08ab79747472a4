/** What the account store promises, field by field: identity, what is stored, and which token is used when. */
module Credentials {
  import opened Wrappers
  import opened Text
  import opened Store

  /** The head and the tail that stand for a long token. */
  predicate SameMark(s: string, t: string) {
    if |s| <= 12 && |t| <= 12 then s == t
    else if |s| > 12 && |t| > 12 then s[..6] == t[..6] && s[|s| - 4..] == t[|t| - 4..]
    else if |s| > 12 then t == s[..6] + s[|s| - 4..]
    else s == t[..6] + t[|t| - 4..]
  }

  lemma MarksEqual(s: string, t: string)
    ensures Fingerprint(s) == Fingerprint(t) <==> SameMark(s, t)
  {
    if |s| > 12 && |t| > 12 && Fingerprint(s) == Fingerprint(t) {
      assert Fingerprint(s)[..6] == s[..6] && Fingerprint(t)[..6] == t[..6];
      assert Fingerprint(s)[6..] == s[|s| - 4..] && Fingerprint(t)[6..] == t[|t| - 4..];
    }
  }

  /** Two accounts are one and the same exactly if their users are, or, with no users, if their tokens look alike. */
  lemma IdsEqual(a: Account, b: Account)
    ensures AccountId(a) == AccountId(b) <==>
            if TrimSpace(a.userId) != "" || TrimSpace(b.userId) != "" then TrimSpace(a.userId) == TrimSpace(b.userId)
            else SameMark(a.token, b.token)
  {
    var x, y := TrimSpace(a.userId), TrimSpace(b.userId);
    MarksEqual(a.token, b.token);
    assert "uid:"[0] == 'u' && "tok:"[0] == 't';
    assert ("uid:" + x)[4..] == x && ("uid:" + y)[4..] == y && ("uid:" + x)[0] == 'u' && ("uid:" + y)[0] == 'u';
    assert ("tok:" + Fingerprint(a.token))[4..] == Fingerprint(a.token) && ("tok:" + Fingerprint(a.token))[0] == 't';
    assert ("tok:" + Fingerprint(b.token))[4..] == Fingerprint(b.token) && ("tok:" + Fingerprint(b.token))[0] == 't';
    hide TrimSpace, Fingerprint, SameMark;
  }

  lemma {:induction false} PositionAt(accounts: seq<Account>, id: string, k: nat)
    requires k < |accounts| && AccountId(accounts[k]) == id
    requires forall j :: 0 <= j < k ==> AccountId(accounts[j]) != id
    ensures Position(accounts, id) == k
  {
    hide AccountId;
    if k > 0 {
      PositionAt(accounts[1..], id, k - 1);
    }
  }

  /** After an account has been put in, it is found, with everything it brought; only time and label are filled in. */
  lemma UpsertStored(accounts: seq<Account>, a: Account, nowMs: int)
    requires TrimSpace(a.token) != ""
    ensures var before, after := Position(accounts, AccountId(a)), After(accounts, Upsert(a, nowMs));
            var k := Position(after, AccountId(a));
      && k < |after| && (before < |accounts| ==> k == before)
      && var b := after[k];
         && b.userId == a.userId && b.token == a.token && b.refreshToken == a.refreshToken
         && b.deviceId == a.deviceId && b.expireAtMs == a.expireAtMs
         && b.obtainedAtMs == (if a.obtainedAtMs == 0 then nowMs else a.obtainedAtMs)
         && b.label_ == if a.label_ == "" && before < |accounts| then accounts[before].label_ else a.label_
  {
    var k, after := Position(accounts, AccountId(a)), After(accounts, Upsert(a, nowMs));
    var b := Completed(accounts, a, nowMs);
    assert after == if k < |accounts| then accounts[k := b] else accounts + [b];
    hide AccountId, After, TrimSpace;
    PositionAt(after, AccountId(a), k);
  }

  /** A refresh changes the token and its expiry, and the refresh token if there is a new one; nothing else. */
  lemma TokensStored(accounts: seq<Account>, id: string, token: string, refresh: string, expireAtMs: int)
    requires Position(accounts, id) < |accounts|
    ensures var k, after := Position(accounts, id), After(accounts, UpdateTokens(id, token, refresh, expireAtMs));
      && |after| == |accounts|
      && var a, b := accounts[k], after[k];
         && b.token == token && b.expireAtMs == expireAtMs
         && b.refreshToken == (if refresh == "" then a.refreshToken else refresh)
         && b.userId == a.userId && b.label_ == a.label_ && b.deviceId == a.deviceId && b.obtainedAtMs == a.obtainedAtMs
  {
  }

  /** A device id once there stays; a missing one is set to the random one. */
  lemma DeviceStored(accounts: seq<Account>, id: string, random: Option<string>)
    requires Position(accounts, id) < |accounts|
    ensures var k, after := Position(accounts, id), After(accounts, EnsureDevice(id, random));
      && |after| == |accounts|
      && after[k].deviceId == (if accounts[k].deviceId == "" && random.Some? then random.value
                               else accounts[k].deviceId)
      && after[k].token == accounts[k].token && after[k].expireAtMs == accounts[k].expireAtMs
      && after[k].userId == accounts[k].userId
  {
  }

  /** The token is not blank and, if its expiry is known, that is more than a minute away. */
  predicate Fresh(a: Account, nowMs: int) {
    TrimSpace(a.token) != "" && (a.expireAtMs == 0 || a.expireAtMs - nowMs > 60_000)
  }

  /**
   Which token is used: a fresh one as it is, whatever a refresh would give; otherwise the
   refreshed one if the refresh succeeds, and the old one, unless it is empty, if it fails.
   */
  lemma TokenUsed(accounts: seq<Account>, id: string, ask: Ask)
    requires Position(accounts, id) < |accounts|
    ensures var a := accounts[Position(accounts, id)];
      && (Fresh(a, ask.nowMs) ==> TokenError(accounts, id, ask) == None && TokenGiven(accounts, id, ask) == a.token)
      && (!Fresh(a, ask.nowMs) && ask.outcome.Refreshed? ==>
            TokenError(accounts, id, ask) == None && TokenGiven(accounts, id, ask) == ask.outcome.token)
      && (!Fresh(a, ask.nowMs) && ask.outcome.RefreshFailed? ==>
            (TokenError(accounts, id, ask) == None <==> a.token != "") && TokenGiven(accounts, id, ask) == a.token)
  {
    hide Position, TrimSpace;
  }

  /**
   A refresh lasts: until a minute before the expiry it brought, every later request uses its
   token, and no further refresh, whatever that would give.
   */
  lemma RefreshLasts(accounts: seq<Account>, id: string, ask: Ask, later: Ask)
    requires "uid:" <= id && Position(accounts, id) < |accounts|
    requires !Fresh(accounts[Position(accounts, id)], ask.nowMs) && ask.outcome.Refreshed?
    requires TrimSpace(ask.outcome.token) != "" && ask.outcome.expireAtMs - later.nowMs > 60_000
    ensures var after, k := AfterToken(accounts, id, ask), Position(accounts, id);
      && Position(after, id) == k && k < |after|
      && TokenError(after, id, later) == None && TokenGiven(after, id, later) == ask.outcome.token
      && AfterToken(after, id, later)[k].token == ask.outcome.token
  {
    var k, o := Position(accounts, id), ask.outcome;
    var refreshed := After(accounts, UpdateTokens(id, o.token, o.refresh, o.expireAtMs));
    RefreshKeepsIds(accounts, id, o.token, o.refresh, o.expireAtMs);
    TokensStored(accounts, id, o.token, o.refresh, o.expireAtMs);
    DeviceKeepsIds(refreshed, id, ask.random);
    DeviceStored(refreshed, id, ask.random);
    var after := AfterToken(accounts, id, ask);
    assert after == After(refreshed, EnsureDevice(id, ask.random)) by {
      hide After;
    }
    hide Position, TrimSpace, AccountId, IdsOf, After;
    TokenUsed(after, id, later);
    assert AfterToken(after, id, later) == After(after, EnsureDevice(id, later.random));
    DeviceStored(after, id, later.random);
  }

  /** Whenever there is a token there is a device id with it, the account's own or a new one that is kept. */
  lemma DeviceGiven(accounts: seq<Account>, id: string, ask: Ask)
    requires "uid:" <= id && Position(accounts, id) < |accounts| && TokenError(accounts, id, ask) == None
    ensures var k, after := Position(accounts, id), AfterToken(accounts, id, ask);
      && |after| == |accounts| && Position(after, id) == k
      && after[k].deviceId == if accounts[k].deviceId == "" && ask.random.Some? then ask.random.value
           else accounts[k].deviceId
  {
    var k := Position(accounts, id);
    DeviceKeepsIds(accounts, id, ask.random);
    DeviceStored(accounts, id, ask.random);
    if ask.outcome.Refreshed? {
      var o := ask.outcome;
      var refreshed := After(accounts, UpdateTokens(id, o.token, o.refresh, o.expireAtMs));
      RefreshKeepsIds(accounts, id, o.token, o.refresh, o.expireAtMs);
      TokensStored(accounts, id, o.token, o.refresh, o.expireAtMs);
      DeviceKeepsIds(refreshed, id, ask.random);
      DeviceStored(refreshed, id, ask.random);
    }
    hide Position, After, AccountId, IdsOf, TrimSpace;
  }

  /** What each outcome of reading the account file leaves. */
  lemma ReloadMeans(accounts: seq<Account>, read: DiskRead)
    ensures (read.NoFile? || read.Unreadable? || read.Malformed?) ==> Reloaded(accounts, read) == accounts
    ensures (read.Missing? || read.Blank?) ==> Reloaded(accounts, read) == []
    ensures read.Parsed? ==> Reloaded(accounts, read) == read.accounts
  {
  }
}
