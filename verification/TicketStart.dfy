/** Every invariant of the ticket database holds of a new one, so each theorem about runs applies to all
    that can be reached from it. */
module TicketStart {
  import TicketModel
  import TicketFiling
  import TicketPhotos
  import TicketFiles
  import TicketGroups
  import TicketRecords
  import TicketNames
  import TicketOrder

  lemma NewDatabase(owner: map<string, string>)
    ensures var db := TicketModel.EMPTY_DB;
            && TicketFiling.Coherent(db) && TicketPhotos.OneHolder(db) && TicketFiles.FilesExact(db)
            && TicketGroups.GroupsApart(owner, db) && TicketRecords.OneRecord(db) && TicketNames.ManualNamesHold(db)
  {
  }

  lemma NothingExpectedYet(cfg: TicketModel.Config, text: TicketModel.Message, photos: seq<TicketModel.Message>,
                           ids: set<string>, k: nat)
    ensures TicketOrder.Expected(cfg, TicketModel.EMPTY_DB, text, photos, ids, k)
  {
  }
}
