/** What the contact directory knows about names: phone numbers keep theirs, contacts and push names are found
    where they were learned, and whatever is learned is saved
    (openwa/src/engine/adapters/baileys-contact-directory.ts:85-170). */
module ContactNames {
  import opened Text
  import opened Jid
  import opened ContactDirectory

  // ---- Names of phone numbers ----

  ghost predicate KeepsNames(e: Entry, after: Entry) {
    && (Given(e.saved) ==> Given(after.saved))
    && (Given(e.push) ==> Given(after.push))
    && (Given(e.verified) ==> Given(after.verified))
  }

  // Every phone number keeps its entry and each kind of name it has.
  ghost predicate PhonesKeepNames(d: Directory, after: Directory) {
    forall k | k in d.entries.at && IsPn(k) :: k in after.entries.at && KeepsNames(d.entries.at[k], after.entries.at[k])
  }

  lemma WithEntryKeepsNames(d: Directory, key: string)
    requires SoundBut(d, key)
    ensures PhonesKeepNames(d, WithEntry(d, key))
  {
    hide IsPn, IsLid, Normal, Others;
    if key !in d.entries.at && IsPn(key) {
      var lid := Migrating(d, d.lidToPn.keys, key);
      if lid.Some? {
        assert GoodLink(lid.value, key);
        NotBoth(lid.value);
      }
    }
  }

  lemma MergeKeepsNames(d: Directory, key: string, n: Names)
    requires SoundBut(d, key)
    ensures PhonesKeepNames(d, Merge(d, key, n).0)
  {
    hide SoundBut, IsPn, WithEntry;
    WithEntryKeepsNames(d, key);
  }

  lemma LearnContactKeepsNames(d: Directory, c: Source)
    requires Sound(d)
    ensures PhonesKeepNames(d, LearnContact(d, c))
  {
    hide Merge, Ids, Normal, IsLid, IsPn, Clean, KeepsNames;
    IdsAreNormal(c);
    var lid, pn := FirstWith(Ids(c), IsLid), FirstWith(Ids(c), IsPn);
    var names := Names(Clean(c.name), Clean(c.notify), Clean(c.verifiedName));
    NothingKeepsNames(d);
    if lid.Some? && pn.Some? && d.lidToPn.Get(lid.value) != pn {
      SetKeeps(d.lidToPn, lid.value, pn.value);
      MergeKeepsNames(d.(lidToPn := d.lidToPn.Set(lid.value, pn.value)), pn.value, names);
    } else if pn.Some? {
      MergeKeepsNames(d, pn.value, names);
    } else if lid.Some? {
      MergeKeepsNames(d, if lid.value in d.lidToPn.at then d.lidToPn.at[lid.value] else lid.value, names);
    }
  }

  lemma NothingKeepsNames(d: Directory)
    ensures PhonesKeepNames(d, d)
  {
  }

  lemma EventKeepsNames(d: Directory, e: Event)
    requires Sound(d)
    ensures PhonesKeepNames(d, Apply(d, e))
  {
    hide Merge, LearnContact, IsPn, KeepsNames, Clean, Resolve;
    NothingKeepsNames(d);
    match e
    case Contact(source) => LearnContactKeepsNames(d, source);
    case Message(jid, pushName) =>
      if Resolve(d, jid).Some? {
        MergeKeepsNames(d, Resolve(d, jid).value, Names(None, Clean(pushName), None));
      }
    case Save =>
  }

  /** A phone number that has a display name has one after every run, whatever is learned. */
  lemma {:induction false} PhoneNamesStay(d: Directory, events: seq<Event>, pn: string)
    requires Sound(d) && IsPn(pn) && DisplayAt(d, pn).Some?
    ensures DisplayAt(Run(d, events), pn).Some?
  {
    hide Sound, Apply, IsPn;
    if events != [] {
      var before := events[..|events| - 1];
      PhoneNamesStay(d, before, pn);
      DirectoryStaysSound(d, before);
      EventKeepsNames(Run(d, before), events[|events| - 1]);
    }
  }

  // ---- Names of all ids ----

  // The contact ties the @lid to a number that it was not tied to before.
  ghost predicate Ties(d: Directory, c: Source, lid: string, pn: string) {
    FirstWith(Ids(c), IsLid) == Some(lid) && FirstWith(Ids(c), IsPn) == Some(pn) && d.lidToPn.Get(lid) != Some(pn)
  }

  ghost predicate BringsName(c: Source) {
    Clean(c.name).Some? || Clean(c.notify).Some? || Clean(c.verifiedName).Some?
  }

  // The name that is found under the number once the @lid is tied to it: that of the number's own entry, or of the
  // @lid's entry if the number has none.
  ghost function NameBehind(d: Directory, lid: string, pn: string): Option<string> {
    if pn in d.entries.at then DisplayAt(d, pn) else DisplayAt(d, lid)
  }

  /** What a sender is called once its @lid is tied to a number, for the first time or anew: the name behind the number,
      with the newly learned names on top. The name of a number that the @lid was tied to before plays no part. */
  lemma NameAfterMapping(d: Directory, c: Source, lid: string, pn: string)
    requires Sound(d) && Ties(d, c, lid, pn)
    ensures NameFor(LearnContact(d, c), Some(lid)) == DisplayAt(LearnContact(d, c), pn)
    ensures NameFor(LearnContact(d, c), Some(lid)).None? <==> NameBehind(d, lid, pn).None? && !BringsName(c)
  {
    hide Ids, IsLid, IsPn, Clean, Normalize, Others, Merge, Sound, NameBehind;
    IdsAreNormal(c);
    assert Normal(lid) && IsLid(lid) && IsPn(pn);
    PnIsNotEmpty(pn);
    var d1, names := d.(lidToPn := d.lidToPn.Set(lid, pn)), Names(Clean(c.name), Clean(c.notify), Clean(c.verifiedName));
    MergedName(d, lid, pn, names);
    assert LearnContact(d, c).entries == Merge(d1, pn, names).0.entries;
  }

  lemma MergedName(d: Directory, lid: string, pn: string, n: Names)
    requires Sound(d) && IsPn(pn)
    ensures var d1 := d.(lidToPn := d.lidToPn.Set(lid, pn));
            DisplayAt(Merge(d1, pn, n).0, pn).None?
            <==> NameBehind(d, lid, pn).None? && !Given(n.saved) && !Given(n.push) && !Given(n.verified)
  {
    hide IsPn, Others, Migrating;
    if pn !in d.entries.at {
      OnlyThisLid(d, lid, pn);
    }
    hide Sound;
  }

  // Every entry but that of `lid` is still there with each kind of name it had.
  ghost predicate OthersKeepNames(d: Directory, after: Directory, lid: Option<string>) {
    forall k | k in d.entries.at && Some(k) != lid ::
      k in after.entries.at && KeepsNames(d.entries.at[k], after.entries.at[k])
  }

  lemma MergeKeepsOthers(d: Directory, key: string, n: Names, lid: Option<string>)
    requires key in d.entries.at || Migrating(d, d.lidToPn.keys, key).None? || Migrating(d, d.lidToPn.keys, key) == lid
    ensures OthersKeepNames(d, Merge(d, key, n).0, lid)
  {
    hide Migrating, Others, IsPn;
  }

  // The @lid that the event ties anew, if it does.
  ghost function Tied(d: Directory, e: Event): Option<string> {
    if e.Contact? then
      var lid, pn := FirstWith(Ids(e.source), IsLid), FirstWith(Ids(e.source), IsPn);
      if lid.Some? && pn.Some? && d.lidToPn.Get(lid.value) != pn then lid else None
    else None
  }

  // An event leaves every other @lid tied as it was and every other entry with its names.
  lemma OthersUntouched(d: Directory, e: Event)
    requires Sound(d)
    ensures OthersKeepNames(d, Apply(d, e), Tied(d, e))
    ensures forall l | Some(l) != Tied(d, e) :: Apply(d, e).lidToPn.Get(l) == d.lidToPn.Get(l)
  {
    hide Merge, Ids, IsLid, IsPn, Clean, Resolve, GoodLink;
    NoMigration(d);
    match e
    case Contact(c) =>
      var lid, pn := FirstWith(Ids(c), IsLid), FirstWith(Ids(c), IsPn);
      var names := Names(Clean(c.name), Clean(c.notify), Clean(c.verifiedName));
      if Tied(d, e).Some? {
        OneMigration(d, lid.value, pn.value);
        MergeKeepsOthers(d.(lidToPn := d.lidToPn.Set(lid.value, pn.value)), pn.value, names, lid);
      } else {
        var key := if pn.Some? then pn
                   else if lid.Some? && lid.value in d.lidToPn.at then Some(d.lidToPn.at[lid.value])
                   else lid;
        if key.Some? {
          MergeKeepsOthers(d, key.value, names, None);
        }
      }
    case Message(jid, pushName) =>
      if Resolve(d, jid).Some? {
        MergeKeepsOthers(d, Resolve(d, jid).value, Names(None, Clean(pushName), None), None);
      }
    case Save =>
  }

  // A number without an entry is the number of no other @lid.
  lemma OneMigration(d: Directory, lid: string, pn: string)
    requires Sound(d)
    ensures var d1 := d.(lidToPn := d.lidToPn.Set(lid, pn));
            pn in d.entries.at || Migrating(d1, d1.lidToPn.keys, pn).None? || Migrating(d1, d1.lidToPn.keys, pn) == Some(lid)
  {
    hide GoodLink, Migrating;
  }

  // The event ties the sender's @lid to a number behind which there is no name, and brings none.
  ghost predicate HidesName(d: Directory, e: Event, jid: Option<string>) {
    && e.Contact?
    && exists lid, pn ::
         Ties(d, e.source, lid, pn) && Normalize(jid) == Some(lid) && NameBehind(d, lid, pn).None? && !BringsName(e.source)
  }

  // What an id resolves to is no @lid but possibly itself.
  lemma ResolvesAway(d: Directory, jid: Option<string>, lid: string)
    requires Sound(d) && IsLid(lid) && Normalize(jid) != Some(lid)
    ensures Resolve(d, jid) != Some(lid)
  {
    assert lid[|lid| - 4] == lid[|lid| - 4..][0] == '@';
    if Normalize(jid).Some? {
      var n := Normalize(jid).value;
      if n in d.lidToPn.at {
        assert GoodLink(n, d.lidToPn.at[n]);
        NotBoth(d.lidToPn.at[n]);
      }
    }
  }

  /** An event takes the name of a sender away exactly when it ties the sender's @lid to a number behind which there is
      no name, and brings none. Every other event leaves every sender that has a name with one. */
  lemma NameLostExactly(d: Directory, e: Event, jid: Option<string>)
    requires Sound(d) && NameFor(d, jid).Some?
    ensures NameFor(Apply(d, e), jid).None? <==> HidesName(d, e, jid)
  {
    hide IsLid, IsPn, Ids, Clean, Apply, Normalize, GoodLink;
    OthersUntouched(d, e);
    var lid := Tied(d, e);
    if lid.Some? && Normalize(jid) == lid {
      var pn := FirstWith(Ids(e.source), IsPn).value;
      assert Ties(d, e.source, lid.value, pn);
      SameIdSameName(Apply(d, e), jid, lid.value);
      ApplyContact(d, e);
      NameAfterMapping(d, e.source, lid.value, pn);
    } else {
      if lid.Some? {
        ResolvesAway(d, jid, lid.value);
      }
      assert Resolve(Apply(d, e), jid) == Resolve(d, jid);
    }
  }

  lemma ApplyContact(d: Directory, e: Event)
    requires e.Contact?
    ensures Apply(d, e) == LearnContact(d, e.source)
  {
  }

  lemma SameIdSameName(d: Directory, jid: Option<string>, lid: string)
    requires Normalize(jid) == Some(lid)
    ensures NameFor(d, jid) == NameFor(d, Some(lid))
  {
    NormalizeIsIdempotent(jid);
    hide Normalize, IsLid;
  }

  ghost predicate HidesNameAt(d: Directory, events: seq<Event>, jid: Option<string>, k: nat)
    requires k < |events|
  {
    HidesName(Run(d, events[..k]), events[k], jid)
  }

  ghost predicate NamedAfter(d: Directory, events: seq<Event>, jid: Option<string>, k: nat)
    requires k <= |events|
  {
    NameFor(Run(d, events[..k]), jid).Some?
  }

  // Named up to the first event that hides the name.
  lemma {:induction false} NamedUpTo(d: Directory, events: seq<Event>, jid: Option<string>, n: nat)
    requires Sound(d) && NameFor(d, jid).Some? && n <= |events|
    requires (forall k | 0 <= k <= n :: NamedAfter(d, events, jid, k))
             || forall k | 0 <= k < n :: !HidesNameAt(d, events, jid, k)
    ensures forall k | 0 <= k <= n :: NamedAfter(d, events, jid, k)
    ensures forall k | 0 <= k < n :: !HidesNameAt(d, events, jid, k)
  {
    hide Sound, Apply, NameFor, HidesName;
    if n == 0 {
      assert events[..0] == [];
    } else {
      NamedUpTo(d, events, jid, n - 1);
      NamedOneMore(d, events, jid, n - 1);
    }
  }

  lemma NamedOneMore(d: Directory, events: seq<Event>, jid: Option<string>, k: nat)
    requires Sound(d) && k < |events| && NamedAfter(d, events, jid, k)
    ensures NamedAfter(d, events, jid, k + 1) <==> !HidesNameAt(d, events, jid, k)
  {
    hide Sound, Apply, NameFor, HidesName;
    DirectoryStaysSound(d, events[..k]);
    assert events[..k + 1][..k] == events[..k];
    NameLostExactly(Run(d, events[..k]), events[k], jid);
  }

  /** Over every run a sender that has a name keeps one, exactly when no event of the run hides it. */
  lemma NamesStay(d: Directory, events: seq<Event>, jid: Option<string>)
    requires Sound(d) && NameFor(d, jid).Some?
    ensures (forall k | 0 <= k <= |events| :: NamedAfter(d, events, jid, k))
            <==> forall k | 0 <= k < |events| :: !HidesNameAt(d, events, jid, k)
  {
    hide Sound, NamedAfter, HidesNameAt, NameFor;
    if forall k | 0 <= k <= |events| :: NamedAfter(d, events, jid, k) {
      NamedUpTo(d, events, jid, |events|);
    } else if forall k | 0 <= k < |events| :: !HidesNameAt(d, events, jid, k) {
      NamedUpTo(d, events, jid, |events|);
    }
  }

  lemma PnIsNotEmpty(pn: string)
    requires IsPn(pn)
    ensures pn != ""
  {
  }

  // An id in its normal form.
  lemma PlainId(user: string, domain: string)
    requires '@' !in user && ':' !in user && domain != BAILEYS_DOMAIN
    ensures Normalize(Some(user + "@" + domain)) == Some(user + "@" + domain)
  {
    AtOf(user, domain);
  }

  /** A name is lost that way in the run in which a message without a name arrives from a number, one with a name
      from an @lid, and then the two are tied together. */
  lemma MappingHidesName()
    ensures var events := [Message(Some("1@c.us"), None), Message(Some("9@lid"), Some("Jane"))];
            var tie := Contact(Source(None, Some("9@lid"), Some("1@c.us"), None, None, None, None));
            var d := Run(EMPTY_DIRECTORY, events);
            && NameFor(d, Some("9@lid")) == Some("Jane")
            && NameFor(Apply(d, tie), Some("9@lid")) == None
  {
    hide Normalize, IsLid, IsPn, Clean, Run, LearnContact, LearnPushName, Ids, Resolve, DisplayAt;
    TwoIds();
    CleanJane();
    var first, second := Message(Some("1@c.us"), None), Message(Some("9@lid"), Some("Jane"));
    RunOfTwo(EMPTY_DIRECTORY, first, second);
    FirstEvent();
    SecondEvent(Apply(EMPTY_DIRECTORY, first));
    var d := Run(EMPTY_DIRECTORY, [first, second]);
    JaneIsNamed(d);
    var c := Source(None, Some("9@lid"), Some("1@c.us"), None, None, None, None);
    TiedIds(c, "1@c.us");
    EmptyIsSound();
    DirectoryStaysSound(EMPTY_DIRECTORY, [first, second]);
    NameAfterMapping(d, c, "9@lid", "1@c.us");
  }

  /** A name is lost too in the run in which an @lid is tied to a number with a name and then to another number of which
      nothing is known, not even an entry. */
  lemma RemappingHidesName()
    ensures var tie := Contact(Source(None, Some("9@lid"), Some("1@c.us"), None, Some("Jane"), None, None));
            var again := Contact(Source(None, Some("9@lid"), Some("2@c.us"), None, None, None, None));
            var d := Run(EMPTY_DIRECTORY, [tie]);
            && NameFor(d, Some("9@lid")) == Some("Jane") && "2@c.us" !in d.entries.at
            && NameFor(Apply(d, again), Some("9@lid")) == None
  {
    hide Normalize, IsLid, IsPn, Clean, Run, LearnContact, Ids, Resolve, NameFor;
    TwoIds();
    CleanJane();
    var c := Source(None, Some("9@lid"), Some("1@c.us"), None, Some("Jane"), None, None);
    var c' := Source(None, Some("9@lid"), Some("2@c.us"), None, None, None, None);
    TiedIds(c, "1@c.us");
    TiedIds(c', "2@c.us");
    EmptyIsSound();
    RunOfOne(EMPTY_DIRECTORY, Contact(c));
    WhatIsLearned(EMPTY_DIRECTORY, c);
    LearnContactKeeps(EMPTY_DIRECTORY, c);
    OneEntry(c, "9@lid", "1@c.us");
    NameAfterMapping(LearnContact(EMPTY_DIRECTORY, c), c', "9@lid", "2@c.us");
  }

  // The first contact of a new directory gets the one entry.
  lemma OneEntry(c: Source, lid: string, pn: string)
    requires FirstWith(Ids(c), IsLid) == Some(lid) && FirstWith(Ids(c), IsPn) == Some(pn)
    ensures var d := LearnContact(EMPTY_DIRECTORY, c);
            d.entries.at.Keys == {pn} && d.lidToPn.at == map[lid := pn]
  {
    hide Ids, IsLid, IsPn, Clean;
  }

  lemma RunOfOne(d: Directory, e: Event)
    ensures Run(d, [e]) == Apply(d, e)
  {
    hide Apply;
    assert Run(d, [e][..0]) == d;
  }

  lemma TwoIds()
    ensures Normalize(Some("9@lid")) == Some("9@lid") && IsLid("9@lid") && !IsPn("9@lid")
    ensures Normalize(Some("1@c.us")) == Some("1@c.us") && IsPn("1@c.us") && !IsLid("1@c.us")
    ensures Normalize(Some("2@c.us")) == Some("2@c.us") && IsPn("2@c.us") && !IsLid("2@c.us")
  {
    hide Normalize, IsLid, IsPn;
    JoinedId("9", "lid");
    JoinedId("1", "c.us");
    JoinedId("2", "c.us");
    LidEnds();
    PnEnds();
    NotBoth("1@c.us");
    NotBoth("2@c.us");
    NotBoth("9@lid");
    assert "1" + "@" + "c.us" == "1@c.us" && "2" + "@" + "c.us" == "2@c.us" && "9" + "@" + "lid" == "9@lid";
  }

  lemma JoinedId(user: string, domain: string)
    requires |user| == 1 && user[0] != '@' && user[0] != ':' && domain != BAILEYS_DOMAIN
    ensures Normalize(Some(user + "@" + domain)) == Some(user + "@" + domain)
  {
    PlainId(user, domain);
  }

  lemma LidEnds()
    ensures IsLid("9@lid")
  {
  }

  lemma PnEnds()
    ensures IsPn("1@c.us") && IsPn("2@c.us")
  {
  }

  lemma RunOfTwo(d: Directory, e: Event, f: Event)
    ensures Run(d, [e, f]) == Apply(Apply(d, e), f)
  {
    hide Apply;
    var both := [e, f];
    assert both[..1] == [e] && [e][..0] == [];
    assert Run(d, [e]) == Apply(Run(d, []), e);
  }

  lemma JaneIsNamed(d: Directory)
    requires Normalize(Some("9@lid")) == Some("9@lid") && IsLid("9@lid")
    requires "9@lid" !in d.lidToPn.at && d.entries.Get("9@lid") == Some(Entry("9@lid", None, Some("Jane"), None))
    requires d.entries.Get("1@c.us") == Some(Entry("1@c.us", None, None, None))
    ensures NameFor(d, Some("9@lid")) == Some("Jane") && DisplayAt(d, "9@lid") == Some("Jane")
    ensures DisplayAt(d, "1@c.us") == None && "1@c.us" in d.entries.at
  {
    hide Normalize, IsLid;
  }

  lemma CleanJane()
    ensures Clean(Some("Jane")) == Some("Jane") && Clean(None) == None
  {
  }

  lemma FirstEvent()
    requires Normalize(Some("1@c.us")) == Some("1@c.us") && IsPn("1@c.us") && !IsLid("1@c.us")
    requires Clean(None) == None
    ensures Apply(EMPTY_DIRECTORY, Message(Some("1@c.us"), None))
         == Directory(Ordered([], map[]), Ordered(["1@c.us"], map["1@c.us" := Entry("1@c.us", None, None, None)]), false)
  {
    hide Normalize, IsLid, IsPn, Clean;
  }

  lemma SecondEvent(d: Directory)
    requires Normalize(Some("9@lid")) == Some("9@lid") && IsLid("9@lid") && !IsPn("9@lid")
    requires Clean(Some("Jane")) == Some("Jane")
    requires d.lidToPn.at == map[] && "9@lid" !in d.entries.at
    ensures Apply(d, Message(Some("9@lid"), Some("Jane")))
         == d.(entries := d.entries.Set("9@lid", Entry("9@lid", None, Some("Jane"), None)), dirty := true)
  {
    hide Normalize, IsLid, IsPn, Clean;
  }

  lemma TiedIds(c: Source, pn: string)
    requires c == Source(None, Some("9@lid"), Some(pn), None, c.name, None, None)
    requires Normalize(Some("9@lid")) == Some("9@lid") && IsLid("9@lid") && !IsPn("9@lid")
    requires Normalize(Some(pn)) == Some(pn) && IsPn(pn) && !IsLid(pn)
    ensures FirstWith(Ids(c), IsLid) == Some("9@lid") && FirstWith(Ids(c), IsPn) == Some(pn)
    ensures Clean(c.notify).None? && Clean(c.verifiedName).None?
  {
    hide Normalize, IsLid, IsPn, FirstWith, Clean;
    CleanJane();
    NothingNormal();
    var ids := Ids(c);
    assert ids == [None, Some("9@lid"), Some(pn), None];
    FirstSkips(ids, IsLid);
    FirstSkips(ids, IsPn);
    FirstSkips(ids[1..], IsLid);
    FirstSkips(ids[1..], IsPn);
    FirstSkips(ids[1..][1..], IsPn);
  }

  lemma NothingNormal()
    ensures Normalize(None) == None
  {
  }

  lemma FirstSkips(ids: seq<Option<string>>, p: string -> bool)
    requires ids != []
    ensures FirstWith(ids, p) == if ids[0].Some? && p(ids[0].value) then ids[0] else FirstWith(ids[1..], p)
  {
  }

  // A number without an entry has no other @lid, so the entry that moves is this one's.
  lemma OnlyThisLid(d: Directory, lid: string, pn: string)
    requires Sound(d) && pn !in d.entries.at
    ensures var d1 := d.(lidToPn := d.lidToPn.Set(lid, pn));
            Migrating(d1, d1.lidToPn.keys, pn) == if lid in d.entries.at then Some(lid) else None
  {
    hide GoodLink, Migrating;
    var d1 := d.(lidToPn := d.lidToPn.Set(lid, pn));
    assert lid in d1.lidToPn.keys;
    assert forall l | l in d.lidToPn.at :: d.lidToPn.at[l] != pn;
  }

  // ---- What is learned ----

  // The entry has the names given, and its other names as before.
  ghost predicate HasNames(e: Entry, n: Names) {
    && (Given(n.saved) ==> e.saved == n.saved)
    && (Given(n.push) ==> e.push == n.push)
    && (Given(n.verified) ==> e.verified == n.verified)
  }

  /** A contact that brings both an @lid and a number ties the @lid to the number and no other @lid to anything; one
      that brings either is found afterwards under it with all names it brought, the address-book name first. */
  lemma WhatIsLearned(d: Directory, c: Source)
    requires Sound(d)
    ensures var after, lid, pn := LearnContact(d, c), FirstWith(Ids(c), IsLid), FirstWith(Ids(c), IsPn);
            var names := Names(Clean(c.name), Clean(c.notify), Clean(c.verifiedName));
            && (lid.Some? && pn.Some? ==> Resolve(after, lid) == pn)
            && (forall l | lid != Some(l) || pn.None? :: after.lidToPn.Get(l) == d.lidToPn.Get(l))
            && forall id: Option<string> | id.Some? && (id == lid || id == pn) ::
                 && Resolve(after, id).Some? && Resolve(after, id).value in after.entries.at
                 && HasNames(after.entries.at[Resolve(after, id).value], names)
                 && (Given(names.saved) ==> NameFor(after, id) == names.saved)
  {
    hide Clean, At, Bare, Domain, ToEngineJid, WithEntry, IsLid, IsPn, Ids;
    IdsAreNormal(c);
    var lid, pn := FirstWith(Ids(c), IsLid), FirstWith(Ids(c), IsPn);
    if lid.Some? {
      NotBoth(lid.value);
      assert Normal(lid.value);
    }
    if pn.Some? {
      NotBoth(pn.value);
      PnIsNotEmpty(pn.value);
      assert Normal(pn.value);
    }
    LidIsNotEmpty(lid);
    forall l | l in d.lidToPn.at
      ensures d.lidToPn.at[l] != ""
    {
      assert GoodLink(l, d.lidToPn.at[l]);
      PnIsNotEmpty(d.lidToPn.at[l]);
    }
  }

  lemma LidIsNotEmpty(lid: Option<string>)
    requires lid.Some? ==> IsLid(lid.value)
    ensures lid != Some("")
  {
  }

  /** A push name is found afterwards where its sender resolves to, and no @lid is tied anew. */
  lemma WhatIsSeen(d: Directory, jid: Option<string>, pushName: Option<string>)
    requires Sound(d)
    ensures var after, key := LearnPushName(d, jid, pushName), Resolve(d, jid);
            && after.lidToPn == d.lidToPn && Resolve(after, jid) == key
            && (key.Some? && key.value != "" ==>
                  key.value in after.entries.at && HasNames(after.entries.at[key.value], Names(None, Clean(pushName), None))
                  && (Given(Clean(pushName)) ==> NameFor(after, jid).Some?))
  {
    hide Clean, Normalize, WithEntry, IsLid;
  }

  // ---- Saving ----

  // The @lid map and every name are the same.
  ghost predicate SameKnowledge(d: Directory, after: Directory) {
    && after.lidToPn == d.lidToPn
    && forall k :: (k in after.entries.at && Display(after.entries.at[k]).Some?)
                   || (k in d.entries.at && Display(d.entries.at[k]).Some?) ==>
                     k in d.entries.at && k in after.entries.at && d.entries.at[k] == after.entries.at[k]
  }

  // Whether the event asks for a save.
  ghost predicate AsksToSave(d: Directory, e: Event) {
    match e
    case Contact(source) => Learned(d, source).1
    case Message(jid, pushName) => Seen(d, jid, pushName).1
    case Save => false
  }

  /** An event asks for a save exactly when it changes the @lid map or a named entry, and what was to be saved before
      stays to be saved. So nothing learned is ever left unsaved, and nothing is saved in vain. */
  lemma SavedExactlyWhenLearned(d: Directory, e: Event)
    requires Sound(d) && !e.Save?
    ensures AsksToSave(d, e) <==> !SameKnowledge(d, Apply(d, e))
    ensures Apply(d, e).dirty == (d.dirty || AsksToSave(d, e))
  {
    hide Sound, Merge, LearnContact, LearnPushName, SameKnowledge;
    match e
    case Contact(source) => LearnedKnowledge(d, source);
    case Message(jid, pushName) => SeenKnowledge(d, jid, pushName);
  }

  lemma MergeKnowledge(d: Directory, key: string, n: Names)
    requires Sound(d)
    ensures Merge(d, key, n).1 <==> !SameKnowledge(d, Merge(d, key, n).0)
  {
    hide GoodLink, IsPn, Others;
    NoMigration(d);
    var (after, changed) := Merge(d, key, n);
    if changed {
      var e := after.entries.at[key];
      assert Display(e).Some?;
    }
  }

  // Knowledge looks at everything but the flag.
  lemma KnowledgeWithoutFlag(d: Directory, after: Directory, dirty: bool)
    ensures SameKnowledge(d, after.(dirty := dirty)) <==> SameKnowledge(d, after)
  {
  }

  lemma LearnedKnowledge(d: Directory, c: Source)
    requires Sound(d)
    ensures Learned(d, c).1 <==> !SameKnowledge(d, LearnContact(d, c))
    ensures LearnContact(d, c).dirty == (d.dirty || Learned(d, c).1)
  {
    hide Ids, IsLid, IsPn, Clean, Sound, Merge;
    var lid, pn := FirstWith(Ids(c), IsLid), FirstWith(Ids(c), IsPn);
    var (after, changed) := Learned(d, c);
    KnowledgeWithoutFlag(d, after, d.dirty || changed);
    if lid.Some? && pn.Some? && d.lidToPn.Get(lid.value) != pn {
      assert after.lidToPn.Get(lid.value) == pn;
    } else {
      var key := if pn.Some? then pn
                 else if lid.Some? && lid.value in d.lidToPn.at then Some(d.lidToPn.at[lid.value])
                 else lid;
      if key.Some? {
        MergeKnowledge(d, key.value, Names(Clean(c.name), Clean(c.notify), Clean(c.verifiedName)));
      }
    }
  }

  lemma SeenKnowledge(d: Directory, jid: Option<string>, pushName: Option<string>)
    requires Sound(d)
    ensures Seen(d, jid, pushName).1 <==> !SameKnowledge(d, LearnPushName(d, jid, pushName))
    ensures LearnPushName(d, jid, pushName).dirty == (d.dirty || Seen(d, jid, pushName).1)
  {
    hide Resolve, Clean, Sound, Merge;
    var key := Resolve(d, jid);
    var (after, changed) := Seen(d, jid, pushName);
    KnowledgeWithoutFlag(d, after, d.dirty || changed);
    if key.Some? && key.value != "" {
      MergeKnowledge(d, key.value, Names(None, Clean(pushName), None));
    }
  }

  lemma NoMigration(d: Directory)
    requires Sound(d)
    ensures forall pn | pn !in d.entries.at :: Migrating(d, d.lidToPn.keys, pn) == None
  {
  }
}
