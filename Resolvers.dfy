/** The two caches of worker.py: TagResolver maps tag names to ids and
    back and creates missing tags on demand; CustomFieldResolver maps
    custom field names to ids and reads a field's value off a document. */
module Resolvers {
  import opened Outcomes
  import opened Text
  import opened Errors
  import opened Client

  // ---------------------------------------------------------------------
  // Dictionary comprehensions
  // ---------------------------------------------------------------------

  /** `{key(x): value(x) for x in items}`: when two items share a key, the
      later one wins. */
  function LastWins<T, K(==), V>(items: seq<T>, key: T -> K, value: T -> V): map<K, V>
  {
    if items == [] then map[]
    else LastWins(items[..|items| - 1], key, value)[key(items[|items| - 1]) := value(items[|items| - 1])]
  }

  /** The index of the last item with key `k`, or -1 when there is none. */
  function LastIndex<T, K(==)>(items: seq<T>, key: T -> K, k: K): (j: int)
    ensures -1 <= j < |items|
    ensures j >= 0 ==> key(items[j]) == k
    ensures forall l :: j < l < |items| ==> key(items[l]) != k
  {
    if items == [] then -1
    else if key(items[|items| - 1]) == k then |items| - 1
    else LastIndex(items[..|items| - 1], key, k)
  }

  /** The comprehension has exactly the keys of the items, and each key
      maps to the value of the last item that has it. */
  lemma {:induction false} LastWinsLookup<T, K, V>(items: seq<T>, key: T -> K, value: T -> V, k: K)
    ensures k in LastWins(items, key, value) <==> LastIndex(items, key, k) >= 0
    ensures k in LastWins(items, key, value) ==>
      LastWins(items, key, value)[k] == value(items[LastIndex(items, key, k)])
  {
    if items != [] {
      LastWinsLookup(items[..|items| - 1], key, value, k);
    }
  }

  function TagName(t: Tag): string { t.name }

  function TagId(t: Tag): int { t.id }

  /** `{t["name"]: t["id"] for t in tags}` */
  function NameIndex(tags: seq<Tag>): map<string, int>
  {
    LastWins(tags, TagName, TagId)
  }

  /** `{t["id"]: t["name"] for t in tags}` */
  function IdIndex(tags: seq<Tag>): map<int, string>
  {
    LastWins(tags, TagId, TagName)
  }

  function FieldName(f: FieldDef): string { f.name }

  function FieldId(f: FieldDef): int { f.id }

  /** `{f["name"]: f["id"] for f in fields}` */
  function FieldIndex(fields: seq<FieldDef>): map<string, int>
  {
    LastWins(fields, FieldName, FieldId)
  }

  // ---------------------------------------------------------------------
  // The tag cache and ensure_tag
  // ---------------------------------------------------------------------

  /** The two dictionaries of a TagResolver. */
  datatype TagCache = TagCache(nameToId: map<string, int>, idToName: map<int, string>)

  /** Every cached name's id leads back to that name. */
  ghost predicate Consistent(cache: TagCache)
  {
    forall n :: n in cache.nameToId ==>
      cache.nameToId[n] in cache.idToName && cache.idToName[cache.nameToId[n]] == n
  }

  /** With distinct tag ids (as a server hands them out), the caches
      `refresh` builds are consistent, even when two tags share a name. */
  lemma RefreshConsistent(tags: seq<Tag>)
    requires forall i, j :: 0 <= i < j < |tags| ==> tags[i].id != tags[j].id
    ensures Consistent(TagCache(NameIndex(tags), IdIndex(tags)))
  {
    forall n | n in NameIndex(tags)
      ensures NameIndex(tags)[n] in IdIndex(tags) && IdIndex(tags)[NameIndex(tags)[n]] == n
    {
      LastWinsLookup(tags, TagName, TagId, n);
      var j := LastIndex(tags, TagName, n);
      var id := tags[j].id;
      LastWinsLookup(tags, TagId, TagName, id);
      assert LastIndex(tags, TagId, id) == j;
    }
  }

  /** `ensure_tag(name)` on the caches: a cached name answers its id with
      no call; otherwise the tag is created and, when that succeeds, the
      new pair enters both dictionaries. */
  function Ensure(cache: TagCache, name: string, create: string -> Result<int, Error>): (Result<int, Error>, TagCache)
  {
    if name in cache.nameToId then (Ok(cache.nameToId[name]), cache)
    else
      match create(name)
      case Err(e) => (Err(e), cache)
      case Ok(id) => (Ok(id), TagCache(cache.nameToId[name := id], cache.idToName[id := name]))
  }

  /** After `ensure_tag` the name is cached with the answered id, in both
      directions; no other name and no other id changes; and a failed
      creation changes nothing. */
  lemma EnsureFrame(cache: TagCache, name: string, create: string -> Result<int, Error>)
    ensures var (r, after) := Ensure(cache, name, create);
      && (r.Err? ==> after == cache && name !in cache.nameToId && r == create(name))
      && (r.Ok? ==> name in after.nameToId && after.nameToId[name] == r.value)
      && (r.Ok? && name !in cache.nameToId ==> after.idToName[r.value] == name && r == create(name))
      && (forall n :: n != name ==>
            (n in after.nameToId <==> n in cache.nameToId) &&
            (n in cache.nameToId ==> after.nameToId[n] == cache.nameToId[n]))
      && (forall i :: r.Ok? && i != r.value ==>
            (i in after.idToName <==> i in cache.idToName) &&
            (i in cache.idToName ==> after.idToName[i] == cache.idToName[i]))
  {
  }

  /** A second `ensure_tag` of the same name is answered from the cache:
      it gives the same id and changes nothing. */
  lemma EnsureIdempotent(cache: TagCache, name: string, create: string -> Result<int, Error>)
    requires Ensure(cache, name, create).0.Ok?
    ensures var (r, after) := Ensure(cache, name, create);
      name in after.nameToId && Ensure(after, name, create) == (r, after)
  {
  }

  /** Creating a tag whose id is new keeps the caches consistent. */
  lemma EnsureKeepsConsistent(cache: TagCache, name: string, create: string -> Result<int, Error>)
    requires Consistent(cache)
    requires name !in cache.nameToId && create(name).Ok? ==> create(name).value !in cache.idToName
    ensures Consistent(Ensure(cache, name, create).1)
  {
    if name !in cache.nameToId && create(name).Ok? {
      var id := create(name).value;
      var after := Ensure(cache, name, create).1;
      forall n | n in after.nameToId
        ensures after.nameToId[n] in after.idToName && after.idToName[after.nameToId[n]] == n
      {
        if n != name {
          assert cache.nameToId[n] in cache.idToName;
          assert cache.nameToId[n] != id;
        }
      }
    }
  }

  /** `TagResolver`: caches tag names and ids. */
  class TagResolver {
    const client: PaperlessClient
    /** The tags of the last refresh. */
    var tags: seq<Tag>
    var nameToId: map<string, int>
    var idToName: map<int, string>

    constructor (client: PaperlessClient)
      ensures this.client == client
      ensures tags == [] && nameToId == map[] && idToName == map[]
    {
      this.client := client;
      tags := [];
      nameToId := map[];
      idToName := map[];
    }

    function Cache(): TagCache
      reads this
    {
      TagCache(nameToId, idToName)
    }

    /** `refresh()`: fetch every tag and rebuild both dictionaries; when the
        fetch raises, nothing is assigned. */
    method Refresh() returns (r: Result<(), Error>)
      modifies this, client
      ensures client.requests == old(client.requests) + [Request.GetTags]
      ensures r.Err? <==> client.tagsReply.Err?
      ensures r.Err? ==> r.error == client.tagsReply.error
      ensures r.Err? ==> tags == old(tags) && Cache() == old(Cache())
      ensures r.Ok? ==> tags == client.tagsReply.value
      ensures r.Ok? ==> nameToId == NameIndex(tags) && idToName == IdIndex(tags)
    {
      var reply := client.GetTags();
      if reply.Err? {
        return Err(reply.error);
      }
      var all := reply.value;
      var byName: map<string, int> := map[];
      var byId: map<int, string> := map[];
      for i := 0 to |all|
        invariant byName == NameIndex(all[..i]) && byId == IdIndex(all[..i])
      {
        assert all[..i + 1][..i] == all[..i];
        byName := byName[all[i].name := all[i].id];
        byId := byId[all[i].id := all[i].name];
      }
      assert all[..|all|] == all;
      tags := all;
      nameToId := byName;
      idToName := byId;
      r := Ok(());
    }

    /** `ensure_tag(name)` */
    method EnsureTag(name: string) returns (r: Result<int, Error>)
      modifies this, client
      ensures (r, Cache()) == Ensure(old(Cache()), name, client.createTagReply)
      ensures tags == old(tags)
      ensures client.requests
           == old(client.requests) + (if name in old(nameToId) then [] else [Request.CreateTag(name)])
    {
      if name in nameToId {
        return Ok(nameToId[name]);
      }
      r := client.CreateTag(name);
      if r.Ok? {
        nameToId := nameToId[name := r.value];
        idToName := idToName[r.value := name];
      }
    }
  }

  // ---------------------------------------------------------------------
  // Custom fields
  // ---------------------------------------------------------------------

  /** An entry `get_field_value` accepts for the field: it is that field,
      and its value is present and not blank. */
  predicate Usable(entry: FieldEntry, fieldId: int)
  {
    entry.field == Some(fieldId) && entry.value.Some? && !IsBlank(entry.value.value)
  }

  /** The stripped value of the first usable entry. */
  function FirstValue(entries: seq<FieldEntry>, fieldId: int): (r: Option<string>)
    ensures r.Some? ==> r.value != [] && Strip(r.value) == r.value
  {
    if entries == [] then None
    else if Usable(entries[0], fieldId) then
      StripIdempotent(entries[0].value.value);
      Some(Strip(entries[0].value.value))
    else FirstValue(entries[1..], fieldId)
  }

  /** A value is found exactly when some entry is usable. */
  lemma {:induction false} FirstValueFound(entries: seq<FieldEntry>, fieldId: int)
    ensures FirstValue(entries, fieldId).Some? <==> exists k :: 0 <= k < |entries| && Usable(entries[k], fieldId)
  {
    if entries != [] && !Usable(entries[0], fieldId) {
      var tail := entries[1..];
      FirstValueFound(tail, fieldId);
      if exists k :: 0 <= k < |entries| && Usable(entries[k], fieldId) {
        var k :| 0 <= k < |entries| && Usable(entries[k], fieldId);
        assert tail[k - 1] == entries[k];
      }
    }
  }

  /** The value found is the stripped value of the first usable entry. */
  lemma {:induction false} FirstValueIsFirstUsable(entries: seq<FieldEntry>, fieldId: int, k: nat)
    requires k < |entries| && Usable(entries[k], fieldId)
    requires forall j :: 0 <= j < k ==> !Usable(entries[j], fieldId)
    ensures FirstValue(entries, fieldId) == Some(Strip(entries[k].value.value))
    decreases k
  {
    if k > 0 {
      var tail := entries[1..];
      assert !Usable(entries[0], fieldId);
      assert tail[k - 1] == entries[k];
      assert forall j :: 0 <= j < k - 1 ==> !Usable(tail[j], fieldId) by {
        forall j | 0 <= j < k - 1 ensures !Usable(tail[j], fieldId) {
          assert tail[j] == entries[j + 1];
        }
      }
      FirstValueIsFirstUsable(tail, fieldId, k - 1);
    }
  }

  /** What `get_field_value(document, field_name)` returns. */
  function FieldValue(nameToId: map<string, int>, doc: Document, fieldName: string): Option<string>
  {
    if fieldName !in nameToId then None else FirstValue(doc.customFields, nameToId[fieldName])
  }

  /** The cases of the custom-field tests: an unknown field name, no entry,
      or a null or blank value all give None. */
  lemma FieldValueAbsent(nameToId: map<string, int>, doc: Document, fieldName: string)
    requires fieldName !in nameToId ||
             forall k :: 0 <= k < |doc.customFields| ==> !Usable(doc.customFields[k], nameToId[fieldName])
    ensures FieldValue(nameToId, doc, fieldName) == None
  {
    if fieldName in nameToId {
      FirstValueFound(doc.customFields, nameToId[fieldName]);
    }
  }

  /** `CustomFieldResolver`: caches custom field names and ids. */
  class CustomFieldResolver {
    const client: PaperlessClient
    var fields: seq<FieldDef>
    var nameToId: map<string, int>

    constructor (client: PaperlessClient)
      ensures this.client == client && fields == [] && nameToId == map[]
    {
      this.client := client;
      fields := [];
      nameToId := map[];
    }

    /** `refresh()`: fetch every field definition and rebuild the index. */
    method Refresh() returns (r: Result<(), Error>)
      modifies this, client
      ensures client.requests == old(client.requests) + [Request.GetCustomFields]
      ensures r.Err? <==> client.fieldsReply.Err?
      ensures r.Err? ==> r.error == client.fieldsReply.error
      ensures r.Err? ==> fields == old(fields) && nameToId == old(nameToId)
      ensures r.Ok? ==> fields == client.fieldsReply.value && nameToId == FieldIndex(fields)
    {
      var reply := client.GetCustomFields();
      if reply.Err? {
        return Err(reply.error);
      }
      var all := reply.value;
      var byName: map<string, int> := map[];
      for i := 0 to |all|
        invariant byName == FieldIndex(all[..i])
      {
        assert all[..i + 1][..i] == all[..i];
        byName := byName[all[i].name := all[i].id];
      }
      assert all[..|all|] == all;
      fields := all;
      nameToId := byName;
      r := Ok(());
    }

    /** `get_field_value(document, field_name)` */
    method GetFieldValue(doc: Document, fieldName: string) returns (r: Option<string>)
      ensures r == FieldValue(nameToId, doc, fieldName)
    {
      if fieldName !in nameToId {
        return None;
      }
      var fieldId := nameToId[fieldName];
      var entries := doc.customFields;
      var i := 0;
      while i < |entries|
        invariant 0 <= i <= |entries|
        invariant FirstValue(entries[i..], fieldId) == FirstValue(entries, fieldId)
      {
        assert entries[i..][1..] == entries[i + 1..];
        var entry := entries[i];
        if entry.field == Some(fieldId) {
          if entry.value.Some? && Strip(entry.value.value) != [] {
            assert Usable(entry, fieldId);
            return Some(Strip(entry.value.value));
          }
        }
        assert !Usable(entry, fieldId);
        i := i + 1;
      }
      return None;
    }
  }
}
