// Which parts of what is shown each kind of answer leaves alone.
module CatalogAnswers {
  import opened Wrappers
  import opened CatalogModel

  // ---- Assets ----

  lemma RevisionAnswersKeepAssets(shown: Shown, o: Origin, asset: Id, revision: Id, cursor: Cursor, answer: Answer)
    ensures ShowRevisions(shown, o, asset, answer).assets == shown.assets
    ensures ShowMoreRevisions(shown, o, asset, cursor, answer).assets == shown.assets
    ensures ShowExact(shown, o, asset, revision, answer).assets == shown.assets
  {
    hide SameExact, RevisionsAnswered, MoreRevisionsAnswered, EntryOr;
  }

  lemma OtherAnswersKeepAssets(shown: Shown, r: Request, answer: Answer)
    requires !r.kind.ListAssets? && !r.kind.AppendAssets? && !r.kind.MoreAuthority? && !r.kind.DetailOf?
            && !r.kind.NewAsset?
    ensures Show(shown, r, answer).assets == shown.assets
  {
    hide ShowRevisions, ShowMoreRevisions, ShowExact, SameExact;
    match r.kind
    case Revisions(asset) => RevisionAnswersKeepAssets(shown, r.origin, asset, "", "", answer);
    case MoreRevisions(asset, cursor) => RevisionAnswersKeepAssets(shown, r.origin, asset, "", cursor, answer);
    case ExactRevision(asset, revision) => RevisionAnswersKeepAssets(shown, r.origin, asset, revision, "", answer);
    case NewWorkspace =>
  }

  // ---- The list ----

  lemma RevisionAnswersKeepList(shown: Shown, o: Origin, asset: Id, revision: Id, cursor: Cursor, answer: Answer)
    ensures ShowRevisions(shown, o, asset, answer).catalogIds == shown.catalogIds
    ensures ShowRevisions(shown, o, asset, answer).page == shown.page
    ensures ShowMoreRevisions(shown, o, asset, cursor, answer).catalogIds == shown.catalogIds
    ensures ShowMoreRevisions(shown, o, asset, cursor, answer).page == shown.page
    ensures ShowExact(shown, o, asset, revision, answer).catalogIds == shown.catalogIds
    ensures ShowExact(shown, o, asset, revision, answer).page == shown.page
  {
    hide SameExact, RevisionsAnswered, MoreRevisionsAnswered, EntryOr;
  }

  lemma DetailAnswersKeepList(shown: Shown, o: Origin, asset: Id, section: string, cursor: Cursor, answer: Answer)
    ensures ShowMoreAuthority(shown, o, asset, section, cursor, answer).catalogIds == shown.catalogIds
    ensures ShowMoreAuthority(shown, o, asset, section, cursor, answer).page == shown.page
    ensures ShowDetail(shown, o, asset, answer).catalogIds == shown.catalogIds
    ensures ShowDetail(shown, o, asset, answer).page == shown.page
    ensures ShowNewAsset(shown, o, answer).catalogIds == shown.catalogIds
    ensures ShowNewAsset(shown, o, answer).page == shown.page
  {
    hide AppendRecords, SectionCursor, PutDetail, ProjectDetail, WithoutAsset, WithoutSections, SameExact;
  }

  lemma OtherAnswersKeepList(shown: Shown, r: Request, answer: Answer)
    requires !r.kind.ListAssets? && !r.kind.AppendAssets?
    ensures Show(shown, r, answer).catalogIds == shown.catalogIds && Show(shown, r, answer).page == shown.page
  {
    hide ShowRevisions, ShowMoreRevisions, ShowExact, ShowMoreAuthority, ShowDetail, ShowNewAsset, SameExact;
    match r.kind
    case Revisions(asset) => RevisionAnswersKeepList(shown, r.origin, asset, "", "", answer);
    case MoreRevisions(asset, cursor) => RevisionAnswersKeepList(shown, r.origin, asset, "", cursor, answer);
    case ExactRevision(asset, revision) => RevisionAnswersKeepList(shown, r.origin, asset, revision, "", answer);
    case MoreAuthority(asset, section, cursor) =>
      DetailAnswersKeepList(shown, r.origin, asset, section, cursor, answer);
    case DetailOf(asset) => DetailAnswersKeepList(shown, r.origin, asset, "", "", answer);
    case NewAsset => DetailAnswersKeepList(shown, r.origin, "", "", "", answer);
    case NewWorkspace =>
  }

  // ---- Revisions ----

  lemma ListAnswersKeepRevisions(shown: Shown, o: Origin, cursor: Cursor, answer: Answer)
    ensures ShowList(shown, o, answer).revisions == shown.revisions
    ensures ShowAppended(shown, o, cursor, answer).revisions == shown.revisions
    ensures ShowNewAsset(shown, o, answer).revisions == shown.revisions
  {
    hide ReplaceAssets, MergeAssets, PageIds, NewIds, ProjectDetail, WithoutAsset, SameExact;
  }

  lemma AssetAnswersKeepRevisions(
    shown: Shown, o: Origin, asset: Id, section: string, revision: Id, cursor: Cursor, answer: Answer)
    ensures ShowMoreAuthority(shown, o, asset, section, cursor, answer).revisions == shown.revisions
    ensures ShowExact(shown, o, asset, revision, answer).revisions == shown.revisions
  {
    hide AppendRecords, SectionCursor, SameExact;
  }

  // Only the answers about an asset's revisions and its detail change them.
  lemma OtherAnswersKeepRevisions(shown: Shown, r: Request, answer: Answer)
    requires !r.kind.Revisions? && !r.kind.MoreRevisions? && !r.kind.DetailOf?
    ensures Show(shown, r, answer).revisions == shown.revisions
  {
    hide ShowList, ShowAppended, ShowNewAsset, ShowMoreAuthority, ShowExact, SameExact;
    match r.kind
    case ListAssets(_, _, _) => ListAnswersKeepRevisions(shown, r.origin, "", answer);
    case AppendAssets(_, _, cursor) => ListAnswersKeepRevisions(shown, r.origin, cursor, answer);
    case NewAsset => ListAnswersKeepRevisions(shown, r.origin, "", answer);
    case MoreAuthority(asset, section, cursor) =>
      AssetAnswersKeepRevisions(shown, r.origin, asset, section, "", cursor, answer);
    case ExactRevision(asset, revision) => AssetAnswersKeepRevisions(shown, r.origin, asset, "", revision, "", answer);
    case NewWorkspace =>
  }

  lemma DetailDropsRevisions(shown: Shown, o: Origin, asset: Id, answer: Answer)
    ensures var after := ShowDetail(shown, o, asset, answer).revisions;
            after == shown.revisions || after == shown.revisions - {asset}
  {
    hide PutDetail, ProjectDetail, WithoutSections, SameExact;
  }
}
