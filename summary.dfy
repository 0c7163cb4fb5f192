/** Building the module's result from the remote object the run ended with: keys are
    copied only when present, some under another name; a VM's tag list is folded into a
    map and its default NIC supplies the IP address. */
module Summary {
  import opened Py
  import opened Lookup

  /** `if src in v: result[dst] = v[src]`, for each (src, dst) pair in order. */
  function CopyPresent(result: map<string, Value>, v: Value, pairs: seq<(string, string)>): Result<map<string, Value>>
    decreases |pairs|
  {
    if pairs == [] then Ok(result)
    else
      var (src, dst) := pairs[0];
      var present :- Has(v, src);
      var next :- if present then (var x :- Index(v, src); Ok(result[dst := x])) else Ok(result);
      CopyPresent(next, v, pairs[1..])
  }

  /** The two maps agree on key `k`: both lack it or both hold the same value. */
  predicate Agree(a: map<string, Value>, b: map<string, Value>, k: string) {
    (k in a <==> k in b) && (k in a ==> a[k] == b[k])
  }

  /** No two pairs write the same destination key. */
  predicate DistinctTargets(pairs: seq<(string, string)>) {
    forall i, j :: 0 <= i < j < |pairs| ==> pairs[i].1 != pairs[j].1
  }

  /** A key that no pair writes. */
  predicate Untouched(pairs: seq<(string, string)>, k: string) {
    forall i :: 0 <= i < |pairs| ==> pairs[i].1 != k
  }

  /** Copying from a dict raises nothing; each destination ends up holding its source's
      value when the source key is present and what it held before when it is not; every
      other key is left as it was. */
  lemma {:induction false} CopyPresentFromDict(result: map<string, Value>, v: Value, pairs: seq<(string, string)>)
    requires v.Dict?
    requires DistinctTargets(pairs)
    ensures CopyPresent(result, v, pairs).Ok?
    ensures var out := CopyPresent(result, v, pairs).value;
      && (forall i :: 0 <= i < |pairs| && pairs[i].0 in v.entries ==>
            pairs[i].1 in out && out[pairs[i].1] == v.entries[pairs[i].0])
      && (forall i :: 0 <= i < |pairs| && pairs[i].0 !in v.entries ==> Agree(out, result, pairs[i].1))
      && (forall k :: Untouched(pairs, k) ==> Agree(out, result, k))
    decreases |pairs|
  {
    if pairs != [] {
      var (src, dst) := pairs[0];
      var next := if src in v.entries then result[dst := v.entries[src]] else result;
      var rest := pairs[1..];
      assert DistinctTargets(rest) by {
        forall i, j | 0 <= i < j < |rest| ensures rest[i].1 != rest[j].1 {
          assert rest[i] == pairs[i + 1] && rest[j] == pairs[j + 1];
        }
      }
      CopyPresentFromDict(next, v, rest);
      var out := CopyPresent(result, v, pairs).value;
      assert out == CopyPresent(next, v, rest).value;
      assert Untouched(rest, dst) by {
        forall i | 0 <= i < |rest| ensures rest[i].1 != dst {
          assert rest[i] == pairs[i + 1];
        }
      }
      forall i | 0 <= i < |pairs| && pairs[i].0 in v.entries
        ensures pairs[i].1 in out && out[pairs[i].1] == v.entries[pairs[i].0]
      {
        if i > 0 {
          assert rest[i - 1] == pairs[i];
        }
      }
      forall i | 0 <= i < |pairs| && pairs[i].0 !in v.entries
        ensures Agree(out, result, pairs[i].1)
      {
        if i > 0 {
          assert rest[i - 1] == pairs[i];
          assert pairs[i].1 != dst;
        }
      }
      forall k | Untouched(pairs, k) ensures Agree(out, result, k) {
        assert pairs[0].1 != k;
        assert Untouched(rest, k) by {
          forall i | 0 <= i < |rest| ensures rest[i].1 != k {
            assert rest[i] == pairs[i + 1];
          }
        }
      }
    }
  }

  /** `tags[tag['key']] = tag['value']` for each tag of the list in order, starting from
      the map `acc`. */
  function TagsFrom(acc: map<string, Value>, tags: seq<Value>): Result<map<string, Value>>
    decreases |tags|
  {
    if tags == [] then Ok(acc)
    else
      var key :- Index(tags[0], "key");
      var value :- Index(tags[0], "value");
      if key.Str? then TagsFrom(acc[key.s := value], tags[1..]) else Err(TypeError)
  }

  /** A tag with a string key and a value. */
  predicate IsTag(t: Value) {
    IsRecord(t, ["key", "value"]) && Field(t, "key").Str?
  }

  /** Tag `i` is the last tag of the list with key `k`. */
  predicate LastTagWith(tags: seq<Value>, k: string, i: int) {
    && 0 <= i < |tags|
    && Field(tags[i], "key") == Str(k)
    && forall j :: i < j < |tags| ==> Field(tags[j], "key") != Str(k)
  }

  /** Some tag of the list has key `k`. */
  predicate HasTag(tags: seq<Value>, k: string) {
    exists i :: 0 <= i < |tags| && Field(tags[i], "key") == Str(k)
  }

  /** Folding well-formed tags raises nothing. */
  lemma {:induction false} TagsFromOk(acc: map<string, Value>, tags: seq<Value>)
    requires forall i :: 0 <= i < |tags| ==> IsTag(tags[i])
    ensures TagsFrom(acc, tags).Ok?
    decreases |tags|
  {
    if tags != [] {
      assert IsTag(tags[0]);
      assert "key" in ["key", "value"] && "value" in ["key", "value"];
      assert forall i :: 0 <= i < |tags[1..]| ==> tags[1..][i] == tags[i + 1];
      TagsFromOk(acc[Field(tags[0], "key").s := Field(tags[0], "value")], tags[1..]);
    }
  }

  /** A key no tag carries keeps what the starting map held for it. */
  lemma {:induction false} TagsFromUntagged(acc: map<string, Value>, tags: seq<Value>, k: string)
    requires forall i :: 0 <= i < |tags| ==> IsTag(tags[i])
    requires !HasTag(tags, k)
    ensures TagsFrom(acc, tags).Ok? && Agree(TagsFrom(acc, tags).value, acc, k)
    decreases |tags|
  {
    if tags != [] {
      assert IsTag(tags[0]);
      assert "key" in ["key", "value"] && "value" in ["key", "value"];
      var rest := tags[1..];
      assert forall i :: 0 <= i < |rest| ==> rest[i] == tags[i + 1];
      assert !HasTag(rest, k);
      assert Field(tags[0], "key") != Str(k);
      TagsFromUntagged(acc[Field(tags[0], "key").s := Field(tags[0], "value")], rest, k);
    }
  }

  /** A key some tag carries maps to the value of the last tag with that key. */
  lemma {:induction false} TagsFromLastWins(acc: map<string, Value>, tags: seq<Value>, k: string)
    requires forall i :: 0 <= i < |tags| ==> IsTag(tags[i])
    requires HasTag(tags, k)
    ensures TagsFrom(acc, tags).Ok?
    ensures exists i :: LastTagWith(tags, k, i) &&
              k in TagsFrom(acc, tags).value && TagsFrom(acc, tags).value[k] == Field(tags[i], "value")
    decreases |tags|
  {
    assert IsTag(tags[0]);
    assert "key" in ["key", "value"] && "value" in ["key", "value"];
    var rest := tags[1..];
    assert forall i :: 0 <= i < |rest| ==> rest[i] == tags[i + 1];
    assert forall i :: 1 <= i < |tags| ==> tags[i] == rest[i - 1];
    var next := acc[Field(tags[0], "key").s := Field(tags[0], "value")];
    assert TagsFrom(acc, tags) == TagsFrom(next, rest);
    if HasTag(rest, k) {
      TagsFromLastWins(next, rest, k);
      var i :| LastTagWith(rest, k, i) &&
               k in TagsFrom(next, rest).value && TagsFrom(next, rest).value[k] == Field(rest[i], "value");
      assert LastTagWith(tags, k, i + 1);
    } else {
      TagsFromUntagged(next, rest, k);
      var i :| 0 <= i < |tags| && Field(tags[i], "key") == Str(k);
      assert i == 0;
      assert LastTagWith(tags, k, 0);
    }
  }

  /** `for nic in nics: if nic['isdefault']: ip = nic['ipaddress']`, starting from `ip`. */
  function DefaultIpFrom(ip: Option<Value>, nics: seq<Value>): Result<Option<Value>>
    decreases |nics|
  {
    if nics == [] then Ok(ip)
    else
      var isDefault :- Index(nics[0], "isdefault");
      if Truthy(isDefault) then
        var address :- Index(nics[0], "ipaddress");
        DefaultIpFrom(Some(address), nics[1..])
      else DefaultIpFrom(ip, nics[1..])
  }

  /** A NIC entry as the platform lists it. */
  predicate IsNic(n: Value) {
    IsRecord(n, ["isdefault", "ipaddress"])
  }

  /** NIC `i` is the last default NIC of the list. */
  predicate LastDefault(nics: seq<Value>, i: int) {
    && 0 <= i < |nics|
    && Truthy(Field(nics[i], "isdefault"))
    && forall j :: i < j < |nics| ==> !Truthy(Field(nics[j], "isdefault"))
  }

  /** Over well-formed NICs the default address is that of the last default NIC, and what
      it was before when no NIC is a default. */
  lemma {:induction false} DefaultIpIsLastDefault(ip: Option<Value>, nics: seq<Value>)
    requires forall i :: 0 <= i < |nics| ==> IsNic(nics[i])
    ensures DefaultIpFrom(ip, nics).Ok?
    ensures (forall i :: 0 <= i < |nics| ==> !Truthy(Field(nics[i], "isdefault"))) ==>
              DefaultIpFrom(ip, nics) == Ok(ip)
    ensures forall i :: LastDefault(nics, i) ==>
              DefaultIpFrom(ip, nics) == Ok(Some(Field(nics[i], "ipaddress")))
    decreases |nics|
  {
    if nics != [] {
      var n := nics[0];
      assert IsNic(n);
      assert "isdefault" in ["isdefault", "ipaddress"] && "ipaddress" in ["isdefault", "ipaddress"];
      var rest := nics[1..];
      assert forall i :: 0 <= i < |rest| ==> rest[i] == nics[i + 1];
      var next := if Truthy(Field(n, "isdefault")) then Some(Field(n, "ipaddress")) else ip;
      DefaultIpIsLastDefault(next, rest);
      assert DefaultIpFrom(ip, nics) == DefaultIpFrom(next, rest);
      forall i | LastDefault(nics, i) ensures DefaultIpFrom(ip, nics) == Ok(Some(Field(nics[i], "ipaddress"))) {
        if i > 0 {
          assert LastDefault(rest, i - 1);
        } else {
          assert forall j :: 0 <= j < |rest| ==> !Truthy(Field(rest[j], "isdefault"));
        }
      }
    }
  }
}
