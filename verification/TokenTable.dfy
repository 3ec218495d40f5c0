/** The one_time_tokens table and its four statements. */
module TokenTable {
  import opened Base

  type TokenId = string

  datatype Token = Token(userId: string, hash: string, purpose: string, expiresAt: Time, consumedAt: Option<Time>)

  type Tokens = map<TokenId, Token>

  predicate Live(t: Token, now: Time) {
    t.consumedAt.None? && t.expiresAt > now
  }

  predicate LiveIn(tokens: Tokens, id: Option<TokenId>, now: Time) {
    id.Some? && id.value in tokens && Live(tokens[id.value], now)
  }

  function Supersede(tokens: Tokens, userId: string, purpose: string, now: Time): Tokens {
    map id | id in tokens ::
      if tokens[id].userId == userId && tokens[id].purpose == purpose && tokens[id].consumedAt.None?
      then tokens[id].(consumedAt := Some(now)) else tokens[id]
  }

  function Issue(tokens: Tokens, id: TokenId, userId: string, hash: string, purpose: string, ttl: Duration,
      now: Time): Tokens {
    Supersede(tokens, userId, purpose, now)[id := Token(userId, hash, purpose, now + ttl, None)]
  }

  /** What the single-use UPDATE matches. */
  predicate Spendable(t: Token, hash: string, purpose: string, now: Time) {
    t.hash == hash && t.purpose == purpose && Live(t, now)
  }

  function Consume(tokens: Tokens, hash: string, purpose: string, now: Time): Tokens {
    map id | id in tokens ::
      if Spendable(tokens[id], hash, purpose, now) then tokens[id].(consumedAt := Some(now)) else tokens[id]
  }

  predicate Purgeable(t: Token, now: Time) {
    t.expiresAt <= now || t.consumedAt.Some?
  }

  function Purge(tokens: Tokens, now: Time): Tokens {
    map id | id in tokens && !Purgeable(tokens[id], now) :: tokens[id]
  }

  /** Hashes of random tokens: no two rows share one. */
  predicate HashesUnique(tokens: Tokens) {
    forall t, u :: t in tokens && u in tokens && tokens[t].hash == tokens[u].hash ==> t == u
  }

  /** The one row the single-use UPDATE can match. */
  ghost function Hit(tokens: Tokens, hash: string, purpose: string, now: Time): Option<TokenId> {
    if exists t :: t in tokens && Spendable(tokens[t], hash, purpose, now)
    then var t :| t in tokens && Spendable(tokens[t], hash, purpose, now); Some(t)
    else None
  }

  /** Consuming hits one row or none, and what was spent cannot be spent again. */
  lemma ConsumeIsExact(tokens: Tokens, hash: string, purpose: string, now: Time, later: Time)
    requires HashesUnique(tokens)
    ensures var hit := Hit(tokens, hash, purpose, now);
            && Consume(tokens, hash, purpose, now) ==
                 (if hit.Some? then tokens[hit.value := tokens[hit.value].(consumedAt := Some(now))] else tokens)
            && (hit.Some? ==> Hit(Consume(tokens, hash, purpose, now), hash, purpose, later).None?)
  {
    var hit := Hit(tokens, hash, purpose, now);
    var after := Consume(tokens, hash, purpose, now);
    if hit.Some? {
      forall t | t in tokens && tokens[t].hash == hash ensures t == hit.value {
      }
    } else {
      forall t | t in tokens ensures after[t] == tokens[t] {
        assert !Spendable(tokens[t], hash, purpose, now);
      }
    }
  }

  /** After an issue the new token is the only live one of its user and purpose. */
  lemma IssueKeeps(tokens: Tokens, id: TokenId, hash: string, userId: string, purpose: string, ttl: Duration, now: Time)
    requires HashesUnique(tokens) && id !in tokens && forall t :: t in tokens ==> tokens[t].hash != hash
    ensures var tokens' := Issue(tokens, id, userId, hash, purpose, ttl, now);
            && HashesUnique(tokens')
            && forall t :: t in tokens' && t != id && tokens'[t].userId == userId && tokens'[t].purpose == purpose ==>
                !Live(tokens'[t], now)
  {
    var superseded := Supersede(tokens, userId, purpose, now);
    assert forall t :: t in superseded ==> t in tokens && superseded[t].hash == tokens[t].hash;
    assert HashesUnique(superseded);
  }

  // ---- what the statements promise, row by row ------------------------------------------

  /** The new token replaces the open ones of the same user and purpose, and no other. */
  ghost predicate Issues(tokens: Tokens, id: TokenId, userId: string, hash: string, purpose: string, ttl: Duration,
                         now: Time, tokens': Tokens)
  {
    && tokens'.Keys == tokens.Keys + {id} && tokens'[id] == Token(userId, hash, purpose, now + ttl, None)
    && forall t :: t in tokens && t != id ==>
         tokens'[t] == if tokens[t].userId == userId && tokens[t].purpose == purpose && tokens[t].consumedAt.None?
                       then Token(userId, tokens[t].hash, purpose, tokens[t].expiresAt, Some(now))
                       else tokens[t]
  }

  /** A token not spent yet and not expired, of this hash and purpose. */
  predicate Works(t: Token, hash: string, purpose: string, now: Time) {
    t.hash == hash && t.purpose == purpose && t.consumedAt.None? && now < t.expiresAt
  }

  /** One such token of the user is spent, and nothing else. */
  ghost predicate Spends(tokens: Tokens, hash: string, purpose: string, now: Time, userId: string, tokens': Tokens) {
    exists t :: && t in tokens && Works(tokens[t], hash, purpose, now) && tokens[t].userId == userId
                && tokens' == tokens[t := Token(userId, hash, purpose, tokens[t].expiresAt, Some(now))]
  }

  predicate NothingWorks(tokens: Tokens, hash: string, purpose: string, now: Time) {
    forall t :: t in tokens ==> !Works(tokens[t], hash, purpose, now)
  }

  lemma IssueIssues(tokens: Tokens, id: TokenId, userId: string, hash: string, purpose: string, ttl: Duration,
      now: Time)
    ensures Issues(tokens, id, userId, hash, purpose, ttl, now, Issue(tokens, id, userId, hash, purpose, ttl, now))
  {
  }

  lemma ConsumeSpends(tokens: Tokens, hash: string, purpose: string, now: Time)
    requires HashesUnique(tokens)
    ensures var hit, tokens' := Hit(tokens, hash, purpose, now), Consume(tokens, hash, purpose, now);
            if hit.Some? then Spends(tokens, hash, purpose, now, tokens[hit.value].userId, tokens')
            else NothingWorks(tokens, hash, purpose, now) && tokens' == tokens
  {
    ConsumeIsExact(tokens, hash, purpose, now, now);
    var hit := Hit(tokens, hash, purpose, now);
    if hit.Some? {
      assert Works(tokens[hit.value], hash, purpose, now);
    } else {
      forall t | t in tokens ensures !Works(tokens[t], hash, purpose, now) {
        assert !Spendable(tokens[t], hash, purpose, now);
      }
    }
  }

  /** The single-use UPDATE ... RETURNING, on a transaction's view of the table. */
  method Spend(tokens: Tokens, hash: string, purpose: string, now: Time) returns (tokens': Tokens,
      userId: Option<string>)
    requires HashesUnique(tokens)
    ensures tokens' == Consume(tokens, hash, purpose, now)
    ensures var hit := Hit(tokens, hash, purpose, now);
            userId == if hit.Some? then Some(tokens[hit.value].userId) else None
  {
    ConsumeIsExact(tokens, hash, purpose, now, now);
    var hits := set t | t in tokens && Spendable(tokens[t], hash, purpose, now);
    if hits == {} {
      assert forall t :: t in tokens && Spendable(tokens[t], hash, purpose, now) ==> t in hits;
      return tokens, None;
    }
    var t :| t in hits;
    return tokens[t := tokens[t].(consumedAt := Some(now))], Some(tokens[t].userId);
  }

  class TokenStore {
    var tokens: Tokens

    constructor ()
      ensures tokens == map[] && Valid()
    {
      tokens := map[];
    }

    predicate Valid()
      reads this
    {
      HashesUnique(tokens)
    }

    /** Supersede the open tokens of the purpose, then insert; the id and the hash are random. */
    method IssueTx(id: TokenId, hash: string, userId: string, purpose: string, ttl: Duration, now: Time)
      requires Valid() && id !in tokens && forall t :: t in tokens ==> tokens[t].hash != hash
      modifies this
      ensures Valid()
      ensures tokens == Issue(old(tokens), id, userId, hash, purpose, ttl, now)
      ensures Issues(old(tokens), id, userId, hash, purpose, ttl, now, tokens)
      ensures forall t :: t in tokens && t != id && tokens[t].userId == userId && tokens[t].purpose == purpose ==>
              !Live(tokens[t], now)
    {
      IssueKeeps(tokens, id, hash, userId, purpose, ttl, now);
      IssueIssues(tokens, id, userId, hash, purpose, ttl, now);
      tokens := map t | t in tokens ::
        if tokens[t].userId == userId && tokens[t].purpose == purpose && tokens[t].consumedAt.None?
        then tokens[t].(consumedAt := Some(now)) else tokens[t];
      tokens := tokens[id := Token(userId, hash, purpose, now + ttl, None)];
    }

    method ConsumeToken(hash: string, purpose: string, now: Time) returns (userId: Option<string>)
      requires Valid()
      modifies this
      ensures Valid()
      ensures tokens == Consume(old(tokens), hash, purpose, now)
      ensures var hit := Hit(old(tokens), hash, purpose, now);
              userId == if hit.Some? then Some(old(tokens)[hit.value].userId) else None
      ensures if userId.Some? then Spends(old(tokens), hash, purpose, now, userId.value, tokens)
              else NothingWorks(old(tokens), hash, purpose, now) && tokens == old(tokens)
    {
      ConsumeSpends(tokens, hash, purpose, now);
      tokens, userId := Spend(tokens, hash, purpose, now);
    }

    method PurgeExpired(now: Time) returns (removed: int)
      requires Valid()
      modifies this
      ensures Valid()
      ensures tokens == Purge(old(tokens), now) && removed == |old(tokens)| - |tokens|
      ensures forall t :: t in tokens <==>
                t in old(tokens) && old(tokens)[t].expiresAt > now && old(tokens)[t].consumedAt.None?
      ensures forall t :: t in tokens ==> tokens[t] == old(tokens)[t]
      ensures forall hash: string, purpose: string, later: Time :: later >= now ==>
                (Hit(tokens, hash, purpose, later).Some? <==> Hit(old(tokens), hash, purpose, later).Some?)
    {
      var before := |tokens|;
      ghost var was := tokens;
      tokens := map t | t in tokens && !(tokens[t].expiresAt <= now || tokens[t].consumedAt.Some?) :: tokens[t];
      removed := before - |tokens|;
      forall hash: string, purpose: string, later: Time | later >= now
        ensures Hit(tokens, hash, purpose, later).Some? <==> Hit(was, hash, purpose, later).Some?
      {
        PurgeIsInvisible(was, hash, purpose, now, later);
      }
    }
  }

  /** No later consume misses a purged token. */
  lemma PurgeIsInvisible(tokens: Tokens, hash: string, purpose: string, now: Time, later: Time)
    requires now <= later
    ensures Hit(Purge(tokens, now), hash, purpose, later).Some? <==> Hit(tokens, hash, purpose, later).Some?
  {
    var kept := Purge(tokens, now);
    forall t | t in tokens && Spendable(tokens[t], hash, purpose, later) ensures t in kept
        && Spendable(kept[t], hash, purpose, later) {
    }
    assert forall t :: t in kept ==> t in tokens && kept[t] == tokens[t];
  }
}
