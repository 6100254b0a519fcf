/**
 * `get_secret`: one `GetSecretValue` request to AWS Secrets Manager behind an
 * unbounded `functools.lru_cache`. Secrets Manager is modelled as a map from
 * (region, secret id) to the response it would give; the cache is the state of
 * the decorator, and every request that reaches Secrets Manager is recorded.
 */
module Secrets {
  import opened Wrappers

  /** The default of `region_name`. */
  const DefaultRegion: string := "us-east-1"

  /** What `get_secret` returns: the `SecretString` text or the raw `SecretBinary` bytes. */
  datatype SecretValue = SecretString(text: string) | SecretBinary(bytes: seq<bv8>)

  /** The fields of a `GetSecretValue` response that `get_secret` looks at. */
  datatype Response = Response(secretString: Option<string>, secretBinary: Option<seq<bv8>>)

  datatype SecretError =
    /** The request failed (unknown id, no access, ...): botocore's `ClientError`, re-raised. */
    | ClientError(secretId: string, region: string)
    /** A response with neither field: `response["SecretBinary"]` raises `KeyError`. */
    | NoSecretBinary(secretId: string)

  /** Secrets Manager as seen from this program: (region, secret id) to response. */
  type SecretsManager = map<(string, string), Response>

  /**
   * The argument tuple `lru_cache` keys on, as the caller wrote it:
   * `get_secret(n)` and `get_secret(n, "us-east-1")` are two different entries.
   */
  datatype CallKey = CallKey(name: string, region: Option<string>)
  {
    function Region(): string {
      if region.Some? then region.value else DefaultRegion
    }
  }

  /**
   * The body of `get_secret`, without the cache. The request fails with
   * `ClientError` exactly when Secrets Manager does not know the id, and the
   * call raises at all exactly when, in addition, a response has neither field.
   */
  function Fetch(sm: SecretsManager, key: CallKey): (r: Result<SecretValue, SecretError>)
    ensures r.Err? && r.error.ClientError? <==> (key.Region(), key.name) !in sm
    ensures r.Err? <==> ((key.Region(), key.name) !in sm ||
      (sm[(key.Region(), key.name)].secretString.None? && sm[(key.Region(), key.name)].secretBinary.None?))
  {
    var id := (key.Region(), key.name);
    if id !in sm then Err(ClientError(key.name, key.Region()))
    else
      match sm[id].secretString
      case Some(text) => Ok(SecretString(text))
      case None =>
        match sm[id].secretBinary
        case Some(bytes) => Ok(SecretBinary(bytes))
        case None => Err(NoSecretBinary(key.name))
  }

  /** The text wins whenever the response carries one. */
  lemma FetchPrefersString(sm: SecretsManager, key: CallKey)
    requires (key.Region(), key.name) in sm
    requires sm[(key.Region(), key.name)].secretString.Some?
    ensures Fetch(sm, key).Ok? && Fetch(sm, key).value.SecretString?
    ensures Fetch(sm, key).value.text == sm[(key.Region(), key.name)].secretString.value
  {
  }

  /**
   * Without a `SecretString` the bytes of `SecretBinary` are returned, and a
   * response with neither field raises `KeyError`.
   */
  lemma FetchFallsBackToBinary(sm: SecretsManager, key: CallKey)
    requires (key.Region(), key.name) in sm
    requires sm[(key.Region(), key.name)].secretString.None?
    ensures sm[(key.Region(), key.name)].secretBinary.Some? ==>
      Fetch(sm, key) == Ok(SecretBinary(sm[(key.Region(), key.name)].secretBinary.value))
    ensures sm[(key.Region(), key.name)].secretBinary.None? ==> Fetch(sm, key) == Err(NoSecretBinary(key.name))
  {
  }

  /**
   * The cache's state: the values remembered per argument tuple, and the log of
   * requests that went out to Secrets Manager. Exceptions are not remembered.
   */
  datatype Memo = Memo(entries: map<CallKey, SecretValue>, contacts: seq<CallKey>)

  /** The cache as it is when the process starts. */
  const EmptyMemo := Memo(map[], [])

  /** Every remembered entry came from a request. */
  ghost predicate Consistent(m: Memo) {
    forall k :: k in m.entries ==> k in m.contacts
  }

  /** How often `key` was sent to Secrets Manager. */
  function Contacts(m: Memo, key: CallKey): nat {
    multiset(m.contacts)[key]
  }

  datatype Answer = Answer(result: Result<SecretValue, SecretError>, memo: Memo)

  /**
   * One call of the decorated `get_secret`. A remembered value is answered with
   * no request and no change to the cache. Otherwise exactly one request goes
   * out, its answer is the call's answer, and it is remembered when it succeeds.
   */
  function Call(m: Memo, key: CallKey, sm: SecretsManager): (a: Answer)
    ensures key in m.entries ==> a.result == Ok(m.entries[key]) && a.memo == m
    ensures a.result.Ok? ==> key in a.memo.entries && a.memo.entries[key] == a.result.value
    ensures key !in m.entries ==>
      a.result == Fetch(sm, key) && a.memo.contacts == m.contacts + [key] &&
      a.memo.entries == (if a.result.Ok? then m.entries[key := a.result.value] else m.entries)
  {
    if key in m.entries then Answer(Ok(m.entries[key]), m)
    else
      var r := Fetch(sm, key);
      var contacted := m.contacts + [key];
      Answer(r, Memo(if r.Ok? then m.entries[key := r.value] else m.entries, contacted))
  }

  /**
   * A call never forgets or changes a remembered value, sends at most the one
   * request for its own arguments, and keeps every remembered entry backed by
   * a request.
   */
  lemma CallKeepsMemo(m: Memo, key: CallKey, sm: SecretsManager)
    ensures var a := Call(m, key, sm);
      && (forall k :: k in m.entries ==> k in a.memo.entries && a.memo.entries[k] == m.entries[k])
      && (a.memo.contacts == m.contacts || a.memo.contacts == m.contacts + [key])
      && (Consistent(m) ==> Consistent(a.memo))
      && (a.result.Ok? ==> key in a.memo.entries && a.memo.entries[key] == a.result.value)
  {
  }

  /** A sequence of calls, each with the argument tuple and the state of Secrets Manager at that moment. */
  function Run(m: Memo, calls: seq<(CallKey, SecretsManager)>): (a: (seq<Result<SecretValue, SecretError>>, Memo))
    ensures |a.0| == |calls|
    decreases |calls|
  {
    if calls == [] then ([], m)
    else
      var first := Call(m, calls[0].0, calls[0].1);
      var rest := Run(first.memo, calls[1..]);
      ([first.result] + rest.0, rest.1)
  }

  /** The `i`-th answer of a run is the call made in the cache state the first `i` calls left. */
  lemma {:induction false} RunAnswers(m: Memo, calls: seq<(CallKey, SecretsManager)>, i: nat)
    requires i < |calls|
    ensures Run(m, calls).0[i] == Call(Run(m, calls[..i]).1, calls[i].0, calls[i].1).result
    decreases |calls|
  {
    if i > 0 {
      var first := Call(m, calls[0].0, calls[0].1);
      RunAnswers(first.memo, calls[1..], i - 1);
      assert calls[..i][1..] == calls[1..][..i - 1];
      assert calls[..i][0] == calls[0];
      assert calls[1..][i - 1] == calls[i];
    }
  }

  /**
   * Once a value is remembered, every later call with the same arguments
   * returns it, whatever Secrets Manager holds by then, and sends no request
   * for it.
   */
  lemma {:induction false} RememberedIsFinal(m: Memo, key: CallKey, calls: seq<(CallKey, SecretsManager)>)
    requires key in m.entries
    ensures key in Run(m, calls).1.entries && Run(m, calls).1.entries[key] == m.entries[key]
    ensures Contacts(Run(m, calls).1, key) == Contacts(m, key)
    ensures forall i :: 0 <= i < |calls| && calls[i].0 == key ==> Run(m, calls).0[i] == Ok(m.entries[key])
    decreases |calls|
  {
    if calls != [] {
      var first := Call(m, calls[0].0, calls[0].1);
      assert key in first.memo.entries && first.memo.entries[key] == m.entries[key];
      assert Contacts(first.memo, key) == Contacts(m, key);
      RememberedIsFinal(first.memo, key, calls[1..]);
      var rest := Run(first.memo, calls[1..]);
      forall i | 0 <= i < |calls| && calls[i].0 == key ensures Run(m, calls).0[i] == Ok(m.entries[key]) {
        if i > 0 {
          assert calls[1..][i - 1] == calls[i];
          assert Run(m, calls).0[i] == rest.0[i - 1];
        }
      }
    }
  }

  /**
   * Memoisation: when Secrets Manager answers `key` successfully, a whole run
   * of calls sends at most one more request for `key` than had already gone out.
   */
  lemma {:induction false} AtMostOneContact(m: Memo, key: CallKey, calls: seq<(CallKey, SecretsManager)>)
    requires forall i :: 0 <= i < |calls| ==> Fetch(calls[i].1, key).Ok?
    ensures Contacts(Run(m, calls).1, key) <= Contacts(m, key) + 1
    decreases |calls|
  {
    if calls != [] {
      var first := Call(m, calls[0].0, calls[0].1);
      if key in m.entries {
        RememberedIsFinal(m, key, calls);
      } else if calls[0].0 == key {
        assert first.memo.contacts == m.contacts + [key];
        assert Contacts(first.memo, key) == Contacts(m, key) + 1;
        RememberedIsFinal(first.memo, key, calls[1..]);
      } else {
        if calls[0].0 !in m.entries {
          assert first.memo.contacts == m.contacts + [calls[0].0];
        }
        assert Contacts(first.memo, key) == Contacts(m, key);
        AtMostOneContact(first.memo, key, calls[1..]);
      }
    }
  }

  /** Two calls in a row with the same arguments give the same value, for one request. */
  lemma RepeatedCall(m: Memo, key: CallKey, sm1: SecretsManager, sm2: SecretsManager)
    requires key !in m.entries
    requires Call(m, key, sm1).result.Ok?
    ensures Call(Call(m, key, sm1).memo, key, sm2).result == Call(m, key, sm1).result
    ensures Contacts(Call(Call(m, key, sm1).memo, key, sm2).memo, key) == Contacts(m, key) + 1
  {
    var first := Call(m, key, sm1);
    assert first.memo.contacts == m.contacts + [key];
  }

  /** A failed request is not remembered: the next call asks again. */
  lemma FailureIsRetried(m: Memo, key: CallKey, sm1: SecretsManager, sm2: SecretsManager)
    requires key !in m.entries
    requires Call(m, key, sm1).result.Err?
    ensures Call(Call(m, key, sm1).memo, key, sm2).result == Fetch(sm2, key)
    ensures Contacts(Call(Call(m, key, sm1).memo, key, sm2).memo, key) == Contacts(m, key) + 2
  {
    var first := Call(m, key, sm1);
    assert first.memo.contacts == m.contacts + [key];
    assert Call(first.memo, key, sm2).memo.contacts == m.contacts + [key] + [key];
  }

  /** The `lru_cache` of one process's `get_secret`. */
  class SecretCache {
    var entries: map<CallKey, SecretValue>
    ghost var contacts: seq<CallKey>

    ghost function State(): Memo
      reads this
    {
      Memo(entries, contacts)
    }

    constructor ()
      ensures State() == EmptyMemo
    {
      entries := map[];
      contacts := [];
    }

    /** `get_secret(name)` when `region` is `None`, `get_secret(name, region)` otherwise. */
    method GetSecret(name: string, region: Option<string>, sm: SecretsManager)
      returns (r: Result<SecretValue, SecretError>)
      modifies this
      ensures Call(old(State()), CallKey(name, region), sm) == Answer(r, State())
    {
      var key := CallKey(name, region);
      if key in entries {
        r := Ok(entries[key]);
      } else {
        contacts := contacts + [key];
        r := Fetch(sm, key);
        if r.Ok? {
          entries := entries[key := r.value];
        }
      }
    }
  }
}
