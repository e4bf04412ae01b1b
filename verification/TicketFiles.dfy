/** Stored media files are reference-counted by the media rows. */
module TicketFiles {
  import opened Text
  import opened Rows
  import opened TicketModel
  import opened TicketFiling
  import opened TicketInvariants

  // The stored files are exactly the files that rows refer to.
  ghost predicate FilesExact(db: Db) {
    db.files == set i | i in db.media :: db.media[i].file
  }

  // Rows of the old table keep their file, and every new row has `file`.
  ghost predicate RefersOnlyTo(db: Db, db': Db, file: string) {
    && db.media.Keys <= db'.media.Keys
    && (forall i | i in db.media :: db'.media[i].file == db.media[i].file)
    && (forall i | i in db'.media && i !in db.media :: db'.media[i].file == file)
  }

  lemma AttachedFiles(db: Db, db': Db, m: Message, file: string, choice: Choice)
    requires Attached(db, db', m, file, choice)
    ensures RefersOnlyTo(db, db', file)
  {
    forall i | i in db'.media
      ensures if i in db.media then db'.media[i].file == db.media[i].file else db'.media[i].file == file
    {
      if Claimed(db, m, choice, i, db'.media[i]) {
      } else if Added(db, m, file, choice, i, db'.media[i]) {
      } else {
        assert Untouched(db, i, db'.media[i]);
      }
    }
  }

  // A photo with no row yet gets one for its first target.
  lemma {:induction false} FirstTargetAdded(m: Message, file: string, choice: Choice, n: nat, start: Attaching)
    requires 0 < n <= |choice.links| && start.have == {} && start.spare == []
    ensures var a := AttachAll(m, file, choice, n, start);
            && a.spare == [] && start.db.nextMedia < a.db.nextMedia
            && start.db.nextMedia in a.db.media && a.db.media[start.db.nextMedia].file == file
  {
    if n > 1 {
      FirstTargetAdded(m, file, choice, n - 1, start);
    } else {
      assert AttachAll(m, file, choice, 0, start) == start;
    }
  }

  // The file of a filed photo is one that a row refers to.
  lemma StoredFileReferred(db: Db, m: Message, choice: Choice)
    requires StoredFile(db, m, Query(RowsOf(db, m.id), m.order.media)).Some?
    requires forall i | i in db.media :: i < db.nextMedia
    ensures var file := StoredFile(db, m, Query(RowsOf(db, m.id), m.order.media)).value;
            var db' := AttachPhoto(db, m, choice).db;
            exists i | i in db'.media :: db'.media[i].file == file
  {
    var existing := Query(RowsOf(db, m.id), m.order.media);
    var file := StoredFile(db, m, existing).value;
    var saved := SaveFile(db, m, existing);
    var start := StartAttaching(saved, existing);
    var db' := AttachPhoto(db, m, choice).db;
    if existing != [] {
      AttachPhotoStep(db, m, choice);
      AttachedFiles(saved, db', m, file, choice);
      assert existing[0] in db.media;
      assert db'.media[existing[0]].file == file;
    } else if choice.links == [] {
      assert db'.media[saved.nextMedia].file == file;
    } else {
      FirstTargetAdded(m, file, choice, |choice.links|, start);
      assert db'.media[saved.nextMedia].file == file;
    }
  }

  lemma AttachPhotoFiles(db: Db, m: Message, choice: Choice)
    requires Coherent(db) && FilesExact(db)
    ensures FilesExact(AttachPhoto(db, m, choice).db)
  {
    var existing := Query(RowsOf(db, m.id), m.order.media);
    var stored := StoredFile(db, m, existing);
    var saved := SaveFile(db, m, existing);
    var db' := AttachPhoto(db, m, choice).db;
    AttachPhotoStep(db, m, choice);
    if stored.Some? {
      StoredFileReferred(db, m, choice);
      AttachedFiles(saved, db', m, stored.value, choice);
      if existing != [] {
        assert existing[0] in db.media;
      }
      FilesFollow(db, saved, db', stored.value);
    }
    hide *;
  }

  lemma FilesFollow(db: Db, saved: Db, db': Db, file: string)
    requires FilesExact(db) && saved == db.(files := saved.files)
    requires saved.files == db.files + {file} || (saved.files == db.files && file in db.files)
    requires RefersOnlyTo(saved, db', file) && db'.files == saved.files
    requires exists j | j in db'.media :: db'.media[j].file == file
    ensures FilesExact(db')
  {
    forall f | f in db'.files
      ensures f in set i | i in db'.media :: db'.media[i].file
    {
      if f in db.files {
        var i :| i in db.media && db.media[i].file == f;
        assert db'.media[i].file == f;
      }
    }
  }

  lemma SameFiles(db: Db, db': Db)
    requires FilesExact(db) && db'.files == db.files && db'.media.Keys == db.media.Keys
    requires forall i | i in db.media :: db'.media[i].file == db.media[i].file
    ensures FilesExact(db')
  {
    forall f | f in db.files
      ensures f in set i | i in db'.media :: db'.media[i].file
    {
      var i :| i in db.media && db.media[i].file == f;
      assert db'.media[i].file == f;
    }
  }

  lemma SweepFiles(cfg: Config, db: Db, m: Message, link: Link, quoted: Option<string>)
    requires FilesExact(db)
    ensures FilesExact(Sweep(cfg, db, m, link, quoted))
  {
    SameFiles(db, Sweep(cfg, db, m, link, quoted));
  }

  lemma TextFiles(cfg: Config, db: Db, m: Message, name: string)
    requires Coherent(db) && FilesExact(db)
    ensures FilesExact(TextIngest(cfg, db, m, name).0)
  {
    var issues := IssuesOf(cfg, m);
    var p := FileIssues(cfg, db, m, name, issues, m.failAt, |issues|);
    FileIssuesWell(cfg, db, m, name, issues, m.failAt, |issues|);
    SameFiles(db, p.db);
    hide FileIssues, IssuesOf, Sweep, FilesExact, FiledWell;
    if p.filed != [] {
      SweepFiles(cfg, p.db, m, Strongest(p.filed).link, m.quoted);
    }
    var plate := PlateTarget(cfg, db, m.group, m.text, m.order);
    if plate.Some? {
      SweepFiles(cfg, db, m, Link(plate.value, None), m.quoted);
    }
  }

  lemma PhotoFiles(cfg: Config, db: Db, m: Message, name: string)
    requires Coherent(db) && FilesExact(db)
    ensures FilesExact(PhotoIngest(cfg, db, m, name).0)
  {
    var issues := if m.text != "" then IssuesOf(cfg, m) else [];
    var p := FileIssues(cfg, db, m, name, issues, None, |issues|);
    FileIssuesWell(cfg, db, m, name, issues, None, |issues|);
    SameFiles(db, p.db);
    var choice := ChooseTargets(cfg, p.db, m, p.filed);
    AttachPhotoFiles(p.db, m, choice);
    CaptionHasTarget(cfg, p.db, m, p.filed);
    hide FileIssues, IssuesOf, Sweep, AttachPhoto, ChooseTargets, FilesExact, FiledWell;
    if choice.how == Some(ByCaption) {
      SweepFiles(cfg, AttachPhoto(p.db, m, choice).db, m, choice.links[0], None);
    }
  }

  lemma DismissFiles(db: Db, id: int)
    requires FilesExact(db)
    ensures FilesExact(DeleteMedia(db, id))
  {
    var db' := DeleteMedia(db, id);
    if id in db.media {
      forall f | f in db'.files
        ensures f in set i | i in db'.media :: db'.media[i].file
      {
        var i :| i in db.media && db.media[i].file == f;
        if i != id {
          assert db'.media[i].file == f;
        }
      }
    }
  }

  lemma UploadFiles(db: Db, incident: int, file: string, now: int)
    requires Coherent(db) && FilesExact(db)
    ensures FilesExact(UploadMedia(db, incident, file, now))
  {
    var db' := UploadMedia(db, incident, file, now);
    if incident in db.incidents {
      assert db'.media[db.nextMedia].file == file;
      FilesFollow(db, db.(files := db.files + {file}), db', file);
    }
  }

  // Steps that leave the photo rows alone.
  lemma OtherFiles(cfg: Config, db: Db, s: Step)
    requires FilesExact(db)
    requires s.ReplyTo? || s.ChangeStatus? || s.EditTicket? || s.WhatsAppName? || s.ManualName?
    ensures FilesExact(Apply(cfg, db, s))
  {
    hide CleanName, InFollowUps;
  }

  lemma MovedFiles(cfg: Config, db: Db, s: Step)
    requires FilesExact(db) && (s.Assign? || s.PromoteFollowUp? || s.RelinkFollowUp?)
    ensures FilesExact(Apply(cfg, db, s))
  {
    hide HasPhoto, InIncidents, FilesExact;
    SameFiles(db, Apply(cfg, db, s));
  }

  lemma StaffFiles(cfg: Config, db: Db, s: Step)
    requires Coherent(db) && FilesExact(db) && !IsDelivery(s)
    ensures FilesExact(Apply(cfg, db, s))
  {
    hide Coherent, FilesExact, AssignMedia, DeleteMedia, UploadMedia, Promote, Relink, StaffReply, SetStatus, EditFields,
         Learn, SetManualName;
    if s.Dismiss? {
      DismissFiles(db, s.media);
    } else if s.Upload? {
      UploadFiles(db, s.incident, s.file, s.now);
    } else if s.Assign? || s.PromoteFollowUp? || s.RelinkFollowUp? {
      MovedFiles(cfg, db, s);
    } else {
      OtherFiles(cfg, db, s);
    }
  }

  lemma StepFiles(cfg: Config, db: Db, s: Step)
    requires Coherent(db) && FilesExact(db)
    ensures FilesExact(Apply(cfg, db, s))
  {
    if IsDelivery(s) {
      var learned := Learn(db, s.m.phone, s.m.notifyName);
      LearnRenames(db, s.m.phone, s.m.notifyName);
      RenamedCoherent(db, learned);
      SameFiles(db, learned);
      hide TextIngest, PhotoIngest, Learn, Coherent, FilesExact;
      if s.TextArrives? {
        TextFiles(cfg, learned, s.m, ResolveReporterName(db, s.m.phone, s.m.notifyName));
      } else {
        PhotoFiles(cfg, learned, s.m, ResolveReporterName(db, s.m.phone, s.m.notifyName));
      }
    } else {
      StaffFiles(cfg, db, s);
    }
  }

  /** Over any run of deliveries and staff actions the stored files are exactly the files that
      media rows refer to: no row dangles and no file leaks. */
  lemma {:induction false} FilesStayExact(cfg: Config, db: Db, steps: seq<Step>)
    requires Coherent(db) && FilesExact(db)
    ensures FilesExact(Run(cfg, db, steps))
  {
    if steps != [] {
      var before := steps[..|steps| - 1];
      FilesStayExact(cfg, db, before);
      LinksStayCoherent(cfg, db, before);
      hide Coherent, FilesExact, Apply;
      StepFiles(cfg, Run(cfg, db, before), steps[|steps| - 1]);
    }
  }
}
