/**
 * The lockbox payload read: the entries of a secret's payload are folded
 * into a key-to-text map, and the text of a requested key is picked out.
 */
module LockboxSecret {
  import opened Wrappers
  import opened ResourceModel

  datatype Entry = Entry(key: string, textValue: string)

  /** Reference: the `values` map after the loop; a later entry overwrites an earlier one. */
  function ValuesOf(es: seq<Entry>): map<string, string>
  {
    if es == [] then map[]
    else ValuesOf(es[..|es| - 1])[es[|es| - 1].key := es[|es| - 1].textValue]
  }

  /** Reference: the text of the last entry whose key is `key`, if any. */
  function Selected(es: seq<Entry>, key: string): Option<string>
  {
    if es == [] then None
    else if es[|es| - 1].key == key then Some(es[|es| - 1].textValue)
    else Selected(es[..|es| - 1], key)
  }

  /** A key is in the map exactly when some entry has it. */
  lemma {:induction false} ValuesOfKeys(es: seq<Entry>, k: string)
    ensures k in ValuesOf(es) <==> exists i :: 0 <= i < |es| && es[i].key == k
  {
    if es != [] {
      var init := es[..|es| - 1];
      ValuesOfKeys(init, k);
      if exists i :: 0 <= i < |init| && init[i].key == k {
        var i :| 0 <= i < |init| && init[i].key == k;
        assert es[i] == init[i];
      }
      if exists i :: 0 <= i < |es| && es[i].key == k {
        var i :| 0 <= i < |es| && es[i].key == k;
        if i < |init| {
          assert init[i] == es[i];
        }
      }
    }
  }

  /** Last write wins: a key maps to the text of the last entry with that key. */
  lemma {:induction false} ValuesOfLastWins(es: seq<Entry>, i: nat)
    requires i < |es|
    requires forall j :: i < j < |es| ==> es[j].key != es[i].key
    ensures es[i].key in ValuesOf(es) && ValuesOf(es)[es[i].key] == es[i].textValue
  {
    if i < |es| - 1 {
      var init := es[..|es| - 1];
      assert init[i] == es[i];
      ValuesOfLastWins(init, i);
    }
  }

  /** The selected value is the map's entry for the key: both hold the last matching text. */
  lemma {:induction false} SelectedIsMapEntry(es: seq<Entry>, key: string)
    ensures Selected(es, key) == if key in ValuesOf(es) then Some(ValuesOf(es)[key]) else None
  {
    if es != [] {
      SelectedIsMapEntry(es[..|es| - 1], key);
    }
  }

  /**
   * What the not-found handler does with a failed read: the error it
   * returns, if any, and whether it clears the resource id.
   */
  datatype Handled = Handled(err: Option<Error>, clearsId: bool)

  /** The resource name the not-found handler is given for a secret. */
  function SecretName(secretId: string): string
  {
    "Secret \"" + secretId + "\""
  }

  /**
   * `dataSourceYandexLockBoxSecretPayloadRead`. `secretId`, `key` and
   * `keyExists` are what the configuration holds; `payload` is the answer to
   * the payload `Get`; `handleNotFound` is what the not-found handler makes
   * of a failure and the secret's name.
   */
  method PayloadRead(d: ResourceData, secretId: string, key: string, keyExists: bool,
                     payload: Result<seq<Entry>, Error>, handleNotFound: (Error, string) -> Handled)
    returns (err: Option<Error>)
    modifies d
    ensures payload.Failure? ==>
      var h := handleNotFound(payload.error, SecretName(secretId));
      err == h.err && d.id == (if h.clearsId then "" else secretId) && d.values == old(d.values)
    ensures payload.Success? ==> d.id == secretId
    ensures payload.Success? ==>
      var es := payload.value;
      var picked := keyExists && Selected(es, key).Some?;
      var v0 := old(d.values);
      var v1 := if picked then v0["value" := Str(Selected(es, key).value)] else v0;
      var v2 := v1["secret_id" := Str(secretId)];
      var v3 := v2["key" := Str(key)];
      var v4 := v3["values" := StrMap(ValuesOf(es))];
      if picked && "value" in d.rejects then err == Some(SetRejected("value")) && d.values == v0
      else if "secret_id" in d.rejects then err == Some(SetRejected("secret_id")) && d.values == v1
      else if "key" in d.rejects then err == Some(SetRejected("key")) && d.values == v2
      else if "values" in d.rejects then err == Some(SetRejected("values")) && d.values == v3
      else err == None && d.values == v4
  {
    d.SetId(secretId);
    if payload.Failure? {
      var h := handleNotFound(payload.error, SecretName(secretId));
      if h.clearsId {
        d.SetId("");
      }
      return h.err;
    }
    var entries := payload.value;
    var values: map<string, string> := map[];
    for i := 0 to |entries|
      invariant d.id == secretId
      invariant values == ValuesOf(entries[..i])
      invariant keyExists && Selected(entries[..i], key).Some? ==>
        "value" !in d.rejects && d.values == old(d.values)["value" := Str(Selected(entries[..i], key).value)]
      invariant !(keyExists && Selected(entries[..i], key).Some?) ==> d.values == old(d.values)
    {
      assert entries[..i + 1][..i] == entries[..i];
      var v := entries[i];
      values := values[v.key := v.textValue];
      if keyExists && v.key == key {
        err := d.Set("value", Str(v.textValue));
        if err.Some? {
          SelectedAfterMatch(entries, i, key);
          return;
        }
      }
    }
    assert entries[..|entries|] == entries;

    err := d.Set("secret_id", Str(secretId));
    if err.Some? {
      return;
    }
    err := d.Set("key", Str(key));
    if err.Some? {
      return;
    }
    err := d.Set("values", StrMap(values));
  }

  /** Once an entry matches, every longer prefix, the whole payload included, selects something. */
  lemma {:induction false} SelectedAfterMatch(es: seq<Entry>, i: nat, key: string)
    requires i < |es| && es[i].key == key
    ensures Selected(es, key).Some?
    decreases |es|
  {
    if es[|es| - 1].key != key {
      assert es[..|es| - 1][i] == es[i];
      SelectedAfterMatch(es[..|es| - 1], i, key);
    }
  }
}
