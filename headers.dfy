/**
 * The header merge that `request` and `requestFile` perform before assembling a request
 * (src/node/connection/Connection.js:118-131, repeated at 171-184).
 *
 * The merge seeds a key -> value map from the credential headers, then folds in the
 * connection's own header list: an instance header overwrites an existing key, except the
 * user-agent key, whose values are joined with a single space.
 *
 * The fold is written over prefixes (`hs[..|hs| - 1]` then the last entry) so that a loop
 * walking the list from the front keeps `acc == Fold(hs[..i])` as its invariant.
 */
module Headers {
  import opened Optional

  /** One header entry, as produced by the credential provider or stored on the connection. */
  datatype Header = Header(key: string, value: string)

  /** The header object built for one request. */
  type HeaderMap = map<string, string>

  /** Reading a key of the header object; `None` is JavaScript's `undefined`. */
  function Lookup(m: HeaderMap, k: string): Option<string>
  {
    if k in m then Some(m[k]) else None
  }

  /** The keys a header list mentions. */
  function KeysOf(hs: seq<Header>): set<string>
  {
    if hs == [] then {} else KeysOf(hs[..|hs| - 1]) + {hs[|hs| - 1].key}
  }

  /** The values a header list carries under key `k`, in list order. */
  function ValuesOf(hs: seq<Header>, k: string): seq<string>
  {
    if hs == [] then []
    else ValuesOf(hs[..|hs| - 1], k) + (if hs[|hs| - 1].key == k then [hs[|hs| - 1].value] else [])
  }

  /** Values joined by single spaces, as `+= ' ' + value` accumulates them. */
  function JoinSpace(vs: seq<string>): string
    requires vs != []
  {
    if |vs| == 1 then vs[0] else JoinSpace(vs[..|vs| - 1]) + " " + vs[|vs| - 1]
  }

  // ---------------------------------------------------------------------------------------
  // The merge as the source computes it

  /** Seeding from the credential headers: plain assignment, so a later credential wins. */
  function SeedCredentials(creds: seq<Header>): HeaderMap
  {
    if creds == [] then map[]
    else
      var last := creds[|creds| - 1];
      SeedCredentials(creds[..|creds| - 1])[last.key := last.value]
  }

  /** Folding one instance header into the header object. */
  function AddInstanceHeader(m: HeaderMap, h: Header, userAgentKey: string): (r: HeaderMap)
    ensures r.Keys == m.Keys + {h.key}
    ensures forall k :: k in m && k != h.key ==> r[k] == m[k]
  {
    if h.key in m && h.key == userAgentKey then m[h.key := m[h.key] + " " + h.value]
    else m[h.key := h.value]
  }

  /** Folding the instance header list, front to back, into `seed`. */
  function FoldInstance(seed: HeaderMap, hs: seq<Header>, userAgentKey: string): HeaderMap
  {
    if hs == [] then seed
    else AddInstanceHeader(FoldInstance(seed, hs[..|hs| - 1], userAgentKey), hs[|hs| - 1], userAgentKey)
  }

  /** The header object sent with a request. */
  function Merge(creds: seq<Header>, hs: seq<Header>, userAgentKey: string): HeaderMap
  {
    FoldInstance(SeedCredentials(creds), hs, userAgentKey)
  }

  /**
   * The connection's `USER_AGENT` after a merge: every step of the instance loop records the
   * current user-agent entry, so an empty instance list leaves the previous value in place.
   */
  function TrackedUserAgent(previous: Option<string>, creds: seq<Header>, hs: seq<Header>, userAgentKey: string): Option<string>
  {
    if hs == [] then previous else Lookup(Merge(creds, hs, userAgentKey), userAgentKey)
  }

  // ---------------------------------------------------------------------------------------
  // An independent description of the merged header object

  /**
   * What the merge should hold under `k`: the last credential value for `k` (if any), followed
   * by every instance value for `k`; the user-agent key keeps all of them joined by spaces,
   * every other key keeps the last one.
   */
  function Expected(creds: seq<Header>, hs: seq<Header>, userAgentKey: string, k: string): Option<string>
  {
    var fromCreds := ValuesOf(creds, k);
    var seen := (if fromCreds == [] then [] else [fromCreds[|fromCreds| - 1]]) + ValuesOf(hs, k);
    if seen == [] then None
    else if k == userAgentKey then Some(JoinSpace(seen))
    else Some(seen[|seen| - 1])
  }

  lemma {:induction false} ValuesOfEmptyIffAbsent(hs: seq<Header>, k: string)
    ensures ValuesOf(hs, k) == [] <==> k !in KeysOf(hs)
  {
    if hs != [] {
      ValuesOfEmptyIffAbsent(hs[..|hs| - 1], k);
    }
  }

  /** The credential seed holds, under each key, the last credential value given for it. */
  lemma {:induction false} SeedHoldsLastCredential(creds: seq<Header>, k: string)
    ensures var vs := ValuesOf(creds, k);
            Lookup(SeedCredentials(creds), k) == if vs == [] then None else Some(vs[|vs| - 1])
  {
    if creds != [] {
      SeedHoldsLastCredential(creds[..|creds| - 1], k);
    }
  }

  /** The merge agrees with the independent description under every key. */
  lemma {:induction false} MergeMatchesExpected(creds: seq<Header>, hs: seq<Header>, userAgentKey: string, k: string)
    ensures Lookup(Merge(creds, hs, userAgentKey), k) == Expected(creds, hs, userAgentKey, k)
  {
    if hs == [] {
      SeedHoldsLastCredential(creds, k);
    } else {
      var init, h := hs[..|hs| - 1], hs[|hs| - 1];
      MergeMatchesExpected(creds, init, userAgentKey, k);
      var fromCreds := ValuesOf(creds, k);
      var before := (if fromCreds == [] then [] else [fromCreds[|fromCreds| - 1]]) + ValuesOf(init, k);
      var prev := Merge(creds, init, userAgentKey);
      assert Merge(creds, hs, userAgentKey) == AddInstanceHeader(prev, h, userAgentKey);
      if h.key == k {
        var after := before + [h.value];
        assert ValuesOf(hs, k) == ValuesOf(init, k) + [h.value];
        var credPart := if fromCreds == [] then [] else [fromCreds[|fromCreds| - 1]];
        assert credPart + ValuesOf(hs, k) == after;
        if k == userAgentKey && k in prev {
          assert before != [] && prev[k] == JoinSpace(before);
          assert after[..|after| - 1] == before;
          assert JoinSpace(after) == JoinSpace(before) + " " + h.value;
          assert Expected(creds, hs, userAgentKey, k) == Some(JoinSpace(after));
        }
      } else {
        assert ValuesOf(hs, k) == ValuesOf(init, k);
      }
    }
  }

  /** The merged object has exactly the credential keys and the instance keys. */
  lemma {:induction false} MergeKeys(creds: seq<Header>, hs: seq<Header>, userAgentKey: string)
    ensures Merge(creds, hs, userAgentKey).Keys == KeysOf(creds) + KeysOf(hs)
  {
    var m := Merge(creds, hs, userAgentKey);
    forall k ensures k in m <==> k in KeysOf(creds) + KeysOf(hs) {
      MergeMatchesExpected(creds, hs, userAgentKey, k);
      ValuesOfEmptyIffAbsent(creds, k);
      ValuesOfEmptyIffAbsent(hs, k);
    }
  }

  /** An instance header under an ordinary key overrides any credential: its last value wins. */
  lemma {:induction false} InstanceValueWins(creds: seq<Header>, hs: seq<Header>, userAgentKey: string, k: string)
    requires k != userAgentKey && k in KeysOf(hs)
    ensures var vs := ValuesOf(hs, k);
            vs != [] && Lookup(Merge(creds, hs, userAgentKey), k) == Some(vs[|vs| - 1])
  {
    MergeMatchesExpected(creds, hs, userAgentKey, k);
    ValuesOfEmptyIffAbsent(hs, k);
  }

  /** A key no instance header mentions keeps the last credential value given for it. */
  lemma {:induction false} CredentialKept(creds: seq<Header>, hs: seq<Header>, userAgentKey: string, k: string)
    requires k !in KeysOf(hs)
    ensures Lookup(Merge(creds, hs, userAgentKey), k) == Lookup(SeedCredentials(creds), k)
  {
    MergeMatchesExpected(creds, hs, userAgentKey, k);
    ValuesOfEmptyIffAbsent(hs, k);
    SeedHoldsLastCredential(creds, k);
  }

  /**
   * The user-agent key given once by the credentials and once by the instance list ends up
   * as the credential value, a space, and the instance value.
   */
  lemma UserAgentJoined(creds: seq<Header>, hs: seq<Header>, userAgentKey: string, credValue: string, instanceValue: string)
    requires ValuesOf(creds, userAgentKey) == [credValue]
    requires ValuesOf(hs, userAgentKey) == [instanceValue]
    ensures Lookup(Merge(creds, hs, userAgentKey), userAgentKey) == Some(credValue + " " + instanceValue)
  {
    MergeMatchesExpected(creds, hs, userAgentKey, userAgentKey);
    var seen := [credValue] + [instanceValue];
    assert seen[..1] == [credValue];
    assert JoinSpace(seen) == credValue + " " + instanceValue;
  }

  /** A header appended last under an ordinary key is the value the merged object carries. */
  lemma {:induction false} AppendedHeaderWins(creds: seq<Header>, hs: seq<Header>, userAgentKey: string, k: string, v: string)
    requires k != userAgentKey
    ensures Lookup(Merge(creds, hs + [Header(k, v)], userAgentKey), k) == Some(v)
  {
    assert (hs + [Header(k, v)])[..|hs|] == hs;
  }

  /**
   * After a merge over a non-empty instance list, the recorded `USER_AGENT` is every
   * user-agent value seen (the last credential one, then each instance one) joined by spaces.
   */
  lemma TrackedUserAgentIsJoined(previous: Option<string>, creds: seq<Header>, hs: seq<Header>, userAgentKey: string)
    requires hs != []
    ensures TrackedUserAgent(previous, creds, hs, userAgentKey) == Expected(creds, hs, userAgentKey, userAgentKey)
  {
    MergeMatchesExpected(creds, hs, userAgentKey, userAgentKey);
  }
}
