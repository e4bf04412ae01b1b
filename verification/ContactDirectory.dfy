/** Who is who in a WhatsApp session (openwa/src/engine/adapters/baileys-contact-directory.ts): opaque
    @lid ids are mapped to phone numbers and phone numbers to display names. */
module ContactDirectory {
  import opened Text
  import opened Jid

  // ---- Ids ----

  function Normalize(jid: Option<string>): Option<string> {
    if jid.None? || At(jid.value) == |jid.value| then None
    else Some(ToEngineJid(Bare(jid.value[..At(jid.value)]) + "@" + Domain(jid.value)))
  }

  predicate EndsWith(s: string, suffix: string) { |s| >= |suffix| && s[|s| - |suffix|..] == suffix }

  predicate IsLid(jid: string) { EndsWith(jid, "@lid") }

  predicate IsPn(jid: string) { EndsWith(jid, "@c.us") }

  // An id that normalizing leaves alone.
  ghost predicate Normal(jid: string) { Normalize(Some(jid)) == Some(jid) }

  lemma NormalizeIsIdempotent(jid: Option<string>)
    ensures Normalize(jid).Some? ==> Normal(Normalize(jid).value)
  {
    if Normalize(jid).Some? {
      var s := jid.value;
      var user := Bare(s[..At(s)]);
      assert '@' !in user;
      AtOf(user, Domain(s));
      AtOf(user, ENGINE_DOMAIN);
    }
  }

  lemma LastOf(s: string, suffix: string)
    ensures suffix != "" && EndsWith(s, suffix) ==> s != "" && s[|s| - 1] == suffix[|suffix| - 1]
  {
    if suffix != "" && EndsWith(s, suffix) {
      assert s[|s| - 1] == s[|s| - |suffix|..][|suffix| - 1];
    }
  }

  lemma NotBoth(jid: string)
    ensures !(IsLid(jid) && IsPn(jid))
  {
    LastOf(jid, "@lid");
    LastOf(jid, "@c.us");
  }

  // ---- The directory ----

  // A JavaScript Map: its keys in the order in which they were added.
  datatype Ordered<V> = Ordered(keys: seq<string>, at: map<string, V>) {
    ghost predicate Valid() {
      && (forall k :: k in keys <==> k in at)
      && (forall i, j | 0 <= i < j < |keys| :: keys[i] != keys[j])
    }

    function Set(k: string, v: V): Ordered<V> {
      Ordered(if k in at then keys else keys + [k], at[k := v])
    }

    function Delete(k: string): Ordered<V> { Ordered(Others(keys, k), at - {k}) }

    function Get(k: string): Option<V> { if k in at then Some(at[k]) else None }
  }

  function Others(keys: seq<string>, k: string): (r: seq<string>)
    ensures forall x :: x in r <==> x in keys && x != k
  {
    if keys == [] then [] else (if keys[0] == k then [] else [keys[0]]) + Others(keys[1..], k)
  }

  lemma {:induction false} OthersDistinct(keys: seq<string>, k: string)
    requires forall i, j | 0 <= i < j < |keys| :: keys[i] != keys[j]
    ensures forall i, j | 0 <= i < j < |Others(keys, k)| :: Others(keys, k)[i] != Others(keys, k)[j]
  {
    if keys != [] {
      OthersDistinct(keys[1..], k);
      assert keys[0] !in keys[1..];
    }
  }

  datatype Entry = Entry(id: string, saved: Option<string>, push: Option<string>, verified: Option<string>)

  datatype Directory = Directory(lidToPn: Ordered<string>, entries: Ordered<Entry>, dirty: bool)

  const EMPTY_DIRECTORY := Directory(Ordered([], map[]), Ordered([], map[]), false)

  datatype Names = Names(saved: Option<string>, push: Option<string>, verified: Option<string>)

  // What a Baileys contact or group participant says.
  datatype Source = Source(id: Option<string>, lid: Option<string>, jid: Option<string>, phoneNumber: Option<string>,
                           name: Option<string>, notify: Option<string>, verifiedName: Option<string>)

  function Clean(name: Option<string>): (r: Option<string>)
    ensures r.Some? ==> r.value != ""
  {
    if name.None? || Trim(name.value, IsJsSpace) == "" then None else Some(Trim(name.value, IsJsSpace))
  }

  function FirstWith(ids: seq<Option<string>>, p: string -> bool): (r: Option<string>)
    ensures r.Some? ==> r in ids && p(r.value)
    ensures r.None? ==> forall i | i in ids :: i.None? || !p(i.value)
  {
    if ids == [] then None
    else if ids[0].Some? && p(ids[0].value) then ids[0]
    else FirstWith(ids[1..], p)
  }

  function Ids(c: Source): seq<Option<string>> {
    [Normalize(c.id), Normalize(c.lid), Normalize(c.jid), Normalize(c.phoneNumber)]
  }

  function Resolve(d: Directory, jid: Option<string>): Option<string> {
    var n := Normalize(jid);
    if n.Some? && IsLid(n.value) then (if n.value in d.lidToPn.at then Some(d.lidToPn.at[n.value]) else n)
    else if n.Some? then n
    else if jid == Some("") then None
    else jid
  }

  predicate Given(name: Option<string>) { name.Some? && name.value != "" }

  function Display(e: Entry): Option<string> {
    if Given(e.saved) then e.saved
    else if Given(e.push) then e.push
    else if Given(e.verified) then e.verified
    else None
  }

  function DisplayAt(d: Directory, key: string): Option<string> {
    if key in d.entries.at then Display(d.entries.at[key]) else None
  }

  function NameFor(d: Directory, jid: Option<string>): Option<string> {
    var key := Resolve(d, jid);
    if key.Some? && key.value != "" then DisplayAt(d, key.value) else None
  }

  function PhoneEntries(d: Directory, keys: seq<string>): (r: seq<Entry>)
    requires forall k | k in keys :: k in d.entries.at
  {
    if keys == [] then []
    else
      var e := d.entries.at[keys[|keys| - 1]];
      PhoneEntries(d, keys[..|keys| - 1]) + (if IsPn(e.id) then [e] else [])
  }

  // The first @lid of the number that has an entry of its own.
  function Migrating(d: Directory, keys: seq<string>, pn: string): (r: Option<string>)
    ensures r.Some? ==> r.value in keys && r.value in d.entries.at && d.lidToPn.Get(r.value) == Some(pn)
    ensures r.None? ==> forall k | k in keys :: !(k in d.entries.at && d.lidToPn.Get(k) == Some(pn))
  {
    if keys == [] then None
    else if d.lidToPn.Get(keys[0]) == Some(pn) && keys[0] in d.entries.at then Some(keys[0])
    else Migrating(d, keys[1..], pn)
  }

  // The directory with an entry under `key`, moved from an @lid or new if there was none.
  function WithEntry(d: Directory, key: string): (r: Directory)
    ensures key in r.entries.at && r.lidToPn == d.lidToPn && r.dirty == d.dirty
  {
    if key in d.entries.at then d
    else
      var lid := if IsPn(key) then Migrating(d, d.lidToPn.keys, key) else None;
      if lid.Some? then
        d.(entries := d.entries.Delete(lid.value).Set(key, d.entries.at[lid.value].(id := key)))
      else d.(entries := d.entries.Set(key, Entry(key, None, None, None)))
  }

  function Newer(had: Option<string>, learned: Option<string>): Option<string> {
    if Given(learned) then learned else had
  }

  function Updated(e: Entry, n: Names): Entry {
    Entry(e.id, Newer(e.saved, n.saved), Newer(e.push, n.push), Newer(e.verified, n.verified))
  }

  function Merge(d: Directory, key: string, n: Names): (r: (Directory, bool))
    ensures r.0.lidToPn == d.lidToPn && r.0.dirty == d.dirty && key in r.0.entries.at
  {
    var d1 := WithEntry(d, key);
    var e := Updated(d1.entries.at[key], n);
    (d1.(entries := d1.entries.Set(key, e)), e != d1.entries.at[key])
  }

  // What learning a contact makes of the directory, and whether it changed something worth saving.
  function Learned(d: Directory, c: Source): (r: (Directory, bool)) {
    var lid, pn := FirstWith(Ids(c), IsLid), FirstWith(Ids(c), IsPn);
    var remapped := lid.Some? && pn.Some? && d.lidToPn.Get(lid.value) != pn;
    var d1 := if remapped then d.(lidToPn := d.lidToPn.Set(lid.value, pn.value)) else d;
    var key := if pn.Some? then pn
               else if lid.Some? && lid.value in d1.lidToPn.at then Some(d1.lidToPn.at[lid.value])
               else lid;
    if key.None? then (d1, remapped)
    else
      var (d2, changed) := Merge(d1, key.value, Names(Clean(c.name), Clean(c.notify), Clean(c.verifiedName)));
      (d2, remapped || changed)
  }

  function LearnContact(d: Directory, c: Source): Directory {
    var (after, changed) := Learned(d, c);
    after.(dirty := d.dirty || changed)
  }

  function Seen(d: Directory, jid: Option<string>, pushName: Option<string>): (r: (Directory, bool)) {
    var key := Resolve(d, jid);
    if key.None? || key.value == "" then (d, false) else Merge(d, key.value, Names(None, Clean(pushName), None))
  }

  function LearnPushName(d: Directory, jid: Option<string>, pushName: Option<string>): Directory {
    var (after, changed) := Seen(d, jid, pushName);
    after.(dirty := d.dirty || changed)
  }

  datatype Event = Contact(source: Source) | Message(jid: Option<string>, pushName: Option<string>) | Save

  function Apply(d: Directory, e: Event): Directory {
    match e
    case Contact(source) => LearnContact(d, source)
    case Message(jid, pushName) => LearnPushName(d, jid, pushName)
    case Save => d.(dirty := false)
  }

  function Run(d: Directory, events: seq<Event>): Directory {
    if events == [] then d else Apply(Run(d, events[..|events| - 1]), events[|events| - 1])
  }

  // ---- What holds between events ----

  ghost predicate GoodLink(lid: string, pn: string) { IsLid(lid) && Normal(lid) && IsPn(pn) && Normal(pn) }

  // @lid ids lead to phone numbers, each of which has an entry, and an entry is filed under its id.
  ghost predicate Sound(d: Directory) {
    && d.lidToPn.Valid() && d.entries.Valid()
    && (forall l | l in d.lidToPn.at :: GoodLink(l, d.lidToPn.at[l]) && d.lidToPn.at[l] in d.entries.at)
    && (forall k | k in d.entries.at :: d.entries.at[k].id == k)
  }

  lemma SetKeeps<V>(m: Ordered<V>, k: string, v: V)
    requires m.Valid()
    ensures m.Set(k, v).Valid()
  {
  }

  lemma DeleteKeeps<V>(m: Ordered<V>, k: string)
    requires m.Valid()
    ensures m.Delete(k).Valid()
  {
    OthersDistinct(m.keys, k);
  }

  // Sound except that the entry of `pn` may still be missing.
  ghost predicate SoundBut(d: Directory, pn: string) {
    && d.lidToPn.Valid() && d.entries.Valid()
    && (forall l | l in d.lidToPn.at :: GoodLink(l, d.lidToPn.at[l])
                                        && (d.lidToPn.at[l] in d.entries.at || d.lidToPn.at[l] == pn))
    && (forall k | k in d.entries.at :: d.entries.at[k].id == k)
  }

  function Moved(d: Directory, lid: string, key: string): Directory
    requires lid in d.entries.at
  {
    d.(entries := d.entries.Delete(lid).Set(key, d.entries.at[lid].(id := key)))
  }

  lemma MovedKeeps(d: Directory, lid: string, key: string)
    requires SoundBut(d, key) && lid in d.entries.at && d.lidToPn.Get(lid) == Some(key)
    ensures Sound(Moved(d, lid, key))
    ensures forall k | k in d.entries.at && !IsLid(k) :: k in Moved(d, lid, key).entries.at
  {
    hide IsLid, IsPn, Normal, Others;
    assert GoodLink(lid, key);
    DeleteKeeps(d.entries, lid);
    SetKeeps(d.entries.Delete(lid), key, d.entries.at[lid].(id := key));
    forall l | l in d.lidToPn.at
      ensures d.lidToPn.at[l] in Moved(d, lid, key).entries.at
    {
      assert GoodLink(l, d.lidToPn.at[l]);
      NotBoth(lid);
    }
  }

  lemma WithEntryKeeps(d: Directory, key: string)
    requires SoundBut(d, key)
    ensures Sound(WithEntry(d, key))
    ensures forall k | k in d.entries.at && !IsLid(k) :: k in WithEntry(d, key).entries.at
  {
    hide IsLid, IsPn, GoodLink, Others;
    if key !in d.entries.at {
      var lid := if IsPn(key) then Migrating(d, d.lidToPn.keys, key) else None;
      if lid.Some? {
        MovedKeeps(d, lid.value, key);
        assert WithEntry(d, key) == Moved(d, lid.value, key);
      } else {
        SetKeeps(d.entries, key, Entry(key, None, None, None));
      }
    }
  }

  lemma MergeKeeps(d: Directory, key: string, n: Names)
    requires SoundBut(d, key)
    ensures Sound(Merge(d, key, n).0)
  {
    hide WithEntry, GoodLink, Newer;
    WithEntryKeeps(d, key);
    SetKeeps(WithEntry(d, key).entries, key, Updated(WithEntry(d, key).entries.at[key], n));
  }

  lemma IdsAreNormal(c: Source)
    ensures forall i | i in Ids(c) && i.Some? :: Normal(i.value)
  {
    hide Normalize, Normal;
    NormalizeIsIdempotent(c.id);
    NormalizeIsIdempotent(c.lid);
    NormalizeIsIdempotent(c.jid);
    NormalizeIsIdempotent(c.phoneNumber);
  }

  lemma LearnContactKeeps(d: Directory, c: Source)
    requires Sound(d)
    ensures Sound(LearnContact(d, c))
  {
    hide Merge, Ids, Normal, IsLid, IsPn, Clean;
    IdsAreNormal(c);
    var lid, pn := FirstWith(Ids(c), IsLid), FirstWith(Ids(c), IsPn);
    var names := Names(Clean(c.name), Clean(c.notify), Clean(c.verifiedName));
    if lid.Some? && pn.Some? && d.lidToPn.Get(lid.value) != pn {
      SetKeeps(d.lidToPn, lid.value, pn.value);
      MergeKeeps(d.(lidToPn := d.lidToPn.Set(lid.value, pn.value)), pn.value, names);
    } else if pn.Some? {
      MergeKeeps(d, pn.value, names);
    } else if lid.Some? {
      MergeKeeps(d, if lid.value in d.lidToPn.at then d.lidToPn.at[lid.value] else lid.value, names);
    }
  }

  lemma LearnPushNameKeeps(d: Directory, jid: Option<string>, pushName: Option<string>)
    requires Sound(d)
    ensures Sound(LearnPushName(d, jid, pushName))
  {
    hide Merge, GoodLink, Clean;
    var key := Resolve(d, jid);
    if key.Some? && key.value != "" {
      MergeKeeps(d, key.value, Names(None, Clean(pushName), None));
    }
  }

  /** In every run the @lid map goes only from @lid ids to phone numbers, each with an entry, and every
      entry is filed under its own id. */
  lemma {:induction false} DirectoryStaysSound(d: Directory, events: seq<Event>)
    requires Sound(d)
    ensures Sound(Run(d, events))
  {
    hide Sound, LearnContact, LearnPushName;
    if events != [] {
      var before, last := Run(d, events[..|events| - 1]), events[|events| - 1];
      DirectoryStaysSound(d, events[..|events| - 1]);
      match last
      case Contact(source) => LearnContactKeeps(before, source);
      case Message(jid, pushName) => LearnPushNameKeeps(before, jid, pushName);
      case Save => SavedSound(before);
    }
  }

  lemma SavedSound(d: Directory)
    requires Sound(d)
    ensures Sound(d.(dirty := false))
  {
  }

  lemma EmptyIsSound()
    ensures Sound(EMPTY_DIRECTORY)
  {
  }

  // ---- Resolving and listing ----

  /** Resolving is idempotent, and what an @lid resolves to is itself or a phone number. */
  lemma ResolveIsIdempotent(d: Directory, jid: Option<string>)
    requires Sound(d)
    ensures Resolve(d, Resolve(d, jid)) == Resolve(d, jid)
    ensures NameFor(d, Resolve(d, jid)) == NameFor(d, jid)
  {
    hide At, Bare, Domain, ToEngineJid, IsLid, IsPn;
    NormalizeIsIdempotent(jid);
    var n := Normalize(jid);
    if n.Some? && n.value in d.lidToPn.at {
      assert GoodLink(n.value, d.lidToPn.at[n.value]);
      NotBoth(d.lidToPn.at[n.value]);
    }
  }

  lemma {:induction false} PhoneEntriesAre(d: Directory, keys: seq<string>)
    requires Sound(d) && forall k | k in keys :: k in d.entries.at
    requires forall i, j | 0 <= i < j < |keys| :: keys[i] != keys[j]
    ensures var r := PhoneEntries(d, keys);
            && (forall e | e in r :: IsPn(e.id) && e.id in keys && d.entries.at[e.id] == e)
            && (forall k | k in keys && IsPn(k) :: d.entries.at[k] in r)
            && (forall i, j | 0 <= i < j < |r| :: r[i].id != r[j].id)
  {
    hide IsPn, GoodLink;
    if keys != [] {
      var before, last := keys[..|keys| - 1], keys[|keys| - 1];
      assert keys == before + [last];
      PhoneEntriesAre(d, before);
      assert last !in before;
      assert last in keys;
    }
  }

  /** The list holds each phone number that has an entry exactly once, and nothing else. */
  lemma ListIsEveryPhone(d: Directory)
    requires Sound(d)
    ensures var r := PhoneEntries(d, d.entries.keys);
            && (forall i, j | 0 <= i < j < |r| :: r[i].id != r[j].id)
            && (forall e :: e in r <==> e.id in d.entries.at && IsPn(e.id) && d.entries.at[e.id] == e)
  {
    hide IsPn, GoodLink;
    PhoneEntriesAre(d, d.entries.keys);
  }
}
