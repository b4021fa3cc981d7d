/** `load_profile`: the base profile, with the profile of the client named by `CLIENT`
    merged onto it one level deep, as the compact JSON text put into the prompt, or `""`
    when the merged mapping is empty. The YAML files are inputs: the base mapping, and the
    mappings of the client profiles by file name, a missing file reading as `{}`. */
module ClientProfile {
  import opened Text
  import opened JsonValue

  /** The value key `k` holds after the loop meets the client value `v` for it, when it
      held `prev` before: two dicts are merged with the client's entries winning, and
      anything else is replaced by the client value. */
  function MergeValue(prev: Json, v: Json): (r: Json)
    ensures !(v.JObj? && prev.JObj?) ==> r == v
  {
    if v.JObj? && prev.JObj? then JObj(Update(prev.entries, v.entries)) else v
  }

  /** One pass of the merge loop, for the client entry `(k, v)`. `merged.get(k)` of a
      missing key is `None`, which is no dict. */
  function MergeStep(merged: Entries, k: string, v: Json): (r: Entries)
    ensures Has(r, k) && Get(r, k) == MergeValue(Get(merged, k), v)
    ensures forall k' :: k' != k ==> Has(r, k') == Has(merged, k') && Get(r, k') == Get(merged, k')
  {
    Set(merged, k, MergeValue(Get(merged, k), v))
  }

  /** The client entries merged onto `merged`, in the client's order. */
  function Merge(merged: Entries, client: Entries): (r: Entries)
    ensures forall k :: Has(merged, k) ==> Has(r, k)
    ensures forall i :: 0 <= i < |client| ==> Has(r, client[i].0)
    decreases |client|
  {
    if client == [] then merged else Merge(MergeStep(merged, client[0].0, client[0].1), client[1..])
  }

  /** The merged mapping has the keys of both; a key of the client gets its merged value,
      any other key keeps the base value; the base keys keep their places. */
  lemma {:induction false} MergeGet(base: Entries, client: Entries, k: string)
    requires DistinctKeys(client)
    ensures Has(Merge(base, client), k) <==> Has(base, k) || Has(client, k)
    ensures Get(Merge(base, client), k) ==
      if Has(client, k) then MergeValue(Get(base, k), Get(client, k)) else Get(base, k)
    ensures Keys(base) <= Keys(Merge(base, client))
    ensures DistinctKeys(base) ==> DistinctKeys(Merge(base, client))
    decreases |client|
  {
    if client != [] {
      var base' := MergeStep(base, client[0].0, client[0].1);
      var client' := client[1..];
      assert DistinctKeys(client');
      MergeGet(base', client', k);
      FindTail(client, k);
      PrefixTrans(Keys(base), Keys(base'), Keys(Merge(base', client')));
    }
  }

  /** A key only in the base keeps its base value. */
  lemma BaseOnlyKept(base: Entries, client: Entries, k: string)
    requires DistinctKeys(client)
    requires Has(base, k) && !Has(client, k)
    ensures Has(Merge(base, client), k) && Get(Merge(base, client), k) == Get(base, k)
  {
    MergeGet(base, client, k);
  }

  /** When the client value is no dict, or the base value is none, the client value
      replaces the base value, a dict included. */
  lemma ClientReplaces(base: Entries, client: Entries, k: string)
    requires DistinctKeys(client)
    requires Has(client, k) && !(Get(client, k).JObj? && Get(base, k).JObj?)
    ensures Get(Merge(base, client), k) == Get(client, k)
  {
    MergeGet(base, client, k);
  }

  /** Two dicts under the same key are merged: the inner keys of both, the client's inner
      values winning, the base's kept otherwise. An inner value of the client replaces
      the base's wholesale, even when both are dicts: the merge is one level deep. */
  lemma DictsMerged(base: Entries, client: Entries, k: string, k2: string)
    requires DistinctKeys(client)
    requires Has(client, k) && Get(client, k).JObj? && Get(base, k).JObj?
    requires DistinctKeys(Get(client, k).entries)
    ensures Get(Merge(base, client), k).JObj?
    ensures var inner, b, c := Get(Merge(base, client), k).entries, Get(base, k).entries, Get(client, k).entries;
      && (Has(inner, k2) <==> Has(b, k2) || Has(c, k2))
      && Get(inner, k2) == if Has(c, k2) then Get(c, k2) else Get(b, k2)
  {
    MergeGet(base, client, k);
    UpdateGet(Get(base, k).entries, Get(client, k).entries, k2);
  }

  /** A nested dict of the client replaces the base's nested dict: `{"a": {"x": {"p": 1}}}`
      merged with `{"a": {"x": {"q": 2}}}` gives `{"a": {"x": {"q": 2}}}`. */
  lemma OneLevelDeep()
    ensures var base := [("a", JObj([("x", JObj([("p", JNum("1"))]))]))];
      var client := [("a", JObj([("x", JObj([("q", JNum("2"))]))]))];
      Merge(base, client) == client
  {
    var base := [("a", JObj([("x", JObj([("p", JNum("1"))]))]))];
    var client := [("a", JObj([("x", JObj([("q", JNum("2"))]))]))];
    var inner := [("x", JObj([("q", JNum("2"))]))];
    assert Find(base, "a") == Some(0);
    assert Find([("x", JObj([("p", JNum("1"))]))], "x") == Some(0);
    assert Update([("x", JObj([("p", JNum("1"))]))], inner) == inner;
  }

  /** The merged mapping is empty exactly when both mappings are. */
  lemma MergeEmpty(base: Entries, client: Entries)
    requires DistinctKeys(client)
    ensures Merge(base, client) == [] <==> base == [] && client == []
  {
    MergeGet(base, client, "");
    if client != [] {
      MergeGet(base, client, client[0].0);
      assert Has(client, client[0].0);
    }
  }

  // ---------------------------------------------------------------------------
  // load_profile
  // ---------------------------------------------------------------------------

  /** `os.getenv("CLIENT", "").strip().lower()`, an unset variable given as `""`. */
  function ClientName(env: string): (r: string)
    ensures r == "" <==> Strip(env) == ""
  {
    Lower(Strip(env))
  }

  /** The client's mapping: its file read, or `{}` when it is missing. */
  function ClientMapping(name: string, profiles: map<string, Entries>): Entries {
    if name in profiles then profiles[name] else []
  }

  /** The mapping `load_profile` serialises: the base, with the client's mapping merged
      onto it when `CLIENT` names one. */
  function MergedProfile(base: Entries, env: string, profiles: map<string, Entries>): (r: Entries)
    ensures ClientName(env) == "" ==> r == base
    ensures forall k :: Has(base, k) ==> Has(r, k)
    ensures var name := ClientName(env);
      name != "" && name in profiles ==> forall k :: Has(profiles[name], k) ==> Has(r, k)
  {
    var name := ClientName(env);
    if name != "" then
      var client := ClientMapping(name, profiles);
      assert forall k :: Has(client, k) ==> Has(Merge(base, client), k) by {
        forall k | Has(client, k) ensures Has(Merge(base, client), k) {
          var j :| 0 <= j < |client| && client[j].0 == k;
        }
      }
      Merge(base, client)
    else base
  }

  /** `""` for an empty mapping, its compact JSON text otherwise. */
  function ProfileText(merged: Entries): (s: string)
    ensures s == "" <==> merged == []
  {
    if merged == [] then "" else Dumps(JObj(merged))
  }

  /** `load_profile()`: `merged = dict(base)`, the merge loop over the client's entries,
      then the JSON text. */
  method LoadProfile(base: Entries, env: string, profiles: map<string, Entries>) returns (s: string)
    ensures s == ProfileText(MergedProfile(base, env, profiles))
    ensures s == "" <==> MergedProfile(base, env, profiles) == []
  {
    var clientName := Lower(Strip(env));
    var merged := base;
    if clientName != "" {
      var client := if clientName in profiles then profiles[clientName] else [];
      for i := 0 to |client|
        invariant Merge(merged, client[i..]) == Merge(base, client)
      {
        var (k, v) := client[i];
        assert client[i..][1..] == client[i + 1..];
        if v.JObj? && Get(merged, k).JObj? {
          merged := Set(merged, k, JObj(Update(Get(merged, k).entries, v.entries)));
        } else {
          merged := Set(merged, k, v);
        }
      }
    }
    if merged == [] {
      return "";
    }
    return Dumps(JObj(merged));
  }

  /** With `CLIENT` blank after trimming, the profile is the base. */
  lemma BlankClient(base: Entries, env: string, profiles: map<string, Entries>)
    requires Strip(env) == ""
    ensures MergedProfile(base, env, profiles) == base
  {
  }

  /** The profile text is `""` exactly when the base is empty and no client mapping, or an
      empty one, is merged onto it. */
  lemma EmptyProfile(base: Entries, env: string, profiles: map<string, Entries>)
    requires DistinctKeys(ClientMapping(ClientName(env), profiles))
    ensures ProfileText(MergedProfile(base, env, profiles)) == "" <==>
      base == [] && (Strip(env) == "" || ClientMapping(ClientName(env), profiles) == [])
  {
    MergeEmpty(base, ClientMapping(ClientName(env), profiles));
  }
}
