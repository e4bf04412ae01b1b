/** The contact directory as an object (openwa/src/engine/adapters/baileys-contact-directory.ts). Every method keeps
    the directory sound, no phone number loses a name, and what is learned is marked for saving. */
module ContactStore {
  import opened Text
  import opened ContactDirectory
  import opened ContactNames

  class BaileysContactDirectory {
    var lidToPn: Ordered<string>
    var entries: Ordered<Entry>
    var dirty: bool

    function State(): Directory
      reads this
    {
      Directory(lidToPn, entries, dirty)
    }

    ghost predicate Valid()
      reads this
    {
      Sound(State())
    }

    constructor ()
      ensures State() == EMPTY_DIRECTORY && Valid()
    {
      lidToPn, entries, dirty := Ordered([], map[]), Ordered([], map[]), false;
      new;
      EmptyIsSound();
    }

    // Finds or makes the entry of `key`, which may be a number that was just tied to an @lid.
    method FindEntry(key: string)
      requires SoundBut(State(), key)
      modifies this
      ensures State() == WithEntry(old(State()), key) && Valid()
      ensures PhonesKeepNames(old(State()), State())
    {
      hide IsPn, SoundBut, PhonesKeepNames;
      WithEntryKeeps(State(), key);
      WithEntryKeepsNames(State(), key);
      if key in entries.at {
        return;
      }
      if IsPn(key) {
        var k := 0;
        while k < |lidToPn.keys|
          invariant k <= |lidToPn.keys| && State() == old(State())
          invariant Migrating(State(), lidToPn.keys, key) == Migrating(State(), lidToPn.keys[k..], key)
        {
          var lid := lidToPn.keys[k];
          if lidToPn.Get(lid) == Some(key) && lid in entries.at {
            var moved := entries.at[lid].(id := key);
            entries := entries.Delete(lid);
            entries := entries.Set(key, moved);
            return;
          }
          assert lidToPn.keys[k..][1..] == lidToPn.keys[k + 1..];
          k := k + 1;
        }
      }
      entries := entries.Set(key, Entry(key, None, None, None));
    }

    method Record(key: string, n: Names) returns (changed: bool)
      requires SoundBut(State(), key)
      modifies this
      ensures (State(), changed) == Merge(old(State()), key, n) && Valid()
      ensures key in entries.at && HasNames(entries.at[key], n)
      ensures PhonesKeepNames(old(State()), State())
    {
      hide WithEntry, SoundBut, PhonesKeepNames, Sound;
      MergeKeeps(State(), key, n);
      MergeKeepsNames(State(), key, n);
      FindEntry(key);
      var e := entries.at[key];
      changed := false;
      if Given(n.saved) && e.saved != n.saved {
        e := e.(saved := n.saved);
        changed := true;
      }
      if Given(n.push) && e.push != n.push {
        e := e.(push := n.push);
        changed := true;
      }
      if Given(n.verified) && e.verified != n.verified {
        e := e.(verified := n.verified);
        changed := true;
      }
      entries := entries.Set(key, e);
    }

    method Learn(c: Source)
      requires Valid()
      modifies this
      ensures State() == LearnContact(old(State()), c) && Valid()
      ensures PhonesKeepNames(old(State()), State())
      ensures dirty == (old(dirty) || !SameKnowledge(old(State()), State()))
      ensures var lid, pn := FirstWith(Ids(c), IsLid), FirstWith(Ids(c), IsPn);
              && (lid.Some? && pn.Some? ==> Resolve(State(), lid) == pn)
              && forall id: Option<string> | id.Some? && (id == lid || id == pn) && Given(Clean(c.name)) ::
                   NameFor(State(), id) == Clean(c.name)
    {
      hide Merge, IsLid, IsPn, Clean, Normalize, Sound, SoundBut, PhonesKeepNames, SameKnowledge, HasNames, NameFor, Resolve;
      LearnContactKeeps(State(), c);
      LearnContactKeepsNames(State(), c);
      SavedExactlyWhenLearned(State(), Contact(c));
      WhatIsLearned(State(), c);
      RecordableKeys(State(), c);
      var ids := Ids(c);
      var lid, pn := FirstWith(ids, IsLid), FirstWith(ids, IsPn);
      var changed := false;
      if lid.Some? && pn.Some? && lidToPn.Get(lid.value) != pn {
        lidToPn := lidToPn.Set(lid.value, pn.value);
        changed := true;
      }
      var key := pn;
      if key.None? && lid.Some? {
        key := lidToPn.Get(lid.value);
        if key.None? {
          key := lid;
        }
      }
      if key.Some? {
        var merged := Record(key.value, Names(Clean(c.name), Clean(c.notify), Clean(c.verifiedName)));
        changed := merged || changed;
      }
      if changed {
        dirty := true;
      }
    }

    method SeePushName(jid: Option<string>, pushName: Option<string>)
      requires Valid()
      modifies this
      ensures State() == LearnPushName(old(State()), jid, pushName) && Valid()
      ensures PhonesKeepNames(old(State()), State()) && lidToPn == old(lidToPn)
      ensures dirty == (old(dirty) || !SameKnowledge(old(State()), State()))
      ensures jid.Some? && jid.value != "" && Given(Clean(pushName)) ==> NameFor(State(), jid).Some?
    {
      hide Merge, Resolve, Clean, Sound, SoundBut, PhonesKeepNames, SameKnowledge, HasNames, NameFor;
      LearnPushNameKeeps(State(), jid, pushName);
      EventKeepsNames(State(), Message(jid, pushName));
      SavedExactlyWhenLearned(State(), Message(jid, pushName));
      WhatIsSeen(State(), jid, pushName);
      if jid.Some? && jid.value != "" {
        ResolvesToSomething(State(), jid);
      }
      var key := Resolve(State(), jid);
      if key.Some? && key.value != "" {
        SoundSoRecordable(State(), key.value);
        var changed := Record(key.value, Names(None, Clean(pushName), None));
        if changed {
          dirty := true;
        }
      }
    }

    // The file on disk has everything.
    method Saved()
      requires Valid()
      modifies this`dirty
      ensures Valid() && !dirty && SameKnowledge(old(State()), State())
    {
      dirty := false;
      SavedSound(old(State()));
    }

    method List() returns (r: seq<Entry>)
      requires Valid()
      ensures r == PhoneEntries(State(), entries.keys)
      ensures forall i, j | 0 <= i < j < |r| :: r[i].id != r[j].id
      ensures forall e :: e in r <==> e.id in entries.at && IsPn(e.id) && entries.at[e.id] == e
    {
      hide IsPn;
      ListIsEveryPhone(State());
      r := [];
      var keys := entries.keys;
      for k := 0 to |keys|
        invariant r == PhoneEntries(State(), keys[..k])
      {
        assert keys[..k + 1][..k] == keys[..k] && keys[k] in keys;
        if IsPn(entries.at[keys[k]].id) {
          r := r + [entries.at[keys[k]]];
        }
      }
      assert keys[..|keys|] == keys;
    }
  }

  lemma SoundSoRecordable(d: Directory, key: string)
    requires Sound(d)
    ensures SoundBut(d, key)
  {
  }

  // The directory may take the names of a contact once its @lid is tied.
  lemma RecordableKeys(d: Directory, c: Source)
    requires Sound(d)
    ensures forall key :: SoundBut(d, key)
    ensures var lid, pn := FirstWith(Ids(c), IsLid), FirstWith(Ids(c), IsPn);
            lid.Some? && pn.Some? ==> SoundBut(d.(lidToPn := d.lidToPn.Set(lid.value, pn.value)), pn.value)
  {
    hide Ids, Normal, IsLid, IsPn;
    IdsAreNormal(c);
    var lid, pn := FirstWith(Ids(c), IsLid), FirstWith(Ids(c), IsPn);
    if lid.Some? && pn.Some? {
      SetKeeps(d.lidToPn, lid.value, pn.value);
    }
  }

  lemma ResolvesToSomething(d: Directory, jid: Option<string>)
    requires Sound(d) && jid.Some? && jid.value != ""
    ensures Resolve(d, jid).Some? && Resolve(d, jid).value != ""
  {
  }
}
