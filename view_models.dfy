/**
 * The plain records the reading session works on: archive items, error
 * codes and the slices of the application state that the page model copies.
 */
module ViewModels {
  import opened Wrappers

  /** An archive as listed by the server; identity is `id`. */
  datatype ArchiveItem = ArchiveItem(id: string, name: string, tags: string)

  /**
   * The error codes the page screen reacts to. The enumeration has further
   * cases that the screen ignores; `OtherError` stands for all of them.
   */
  datatype ErrorCode = ArchiveExtractError | ArchiveFetchPageError | OtherError

  /** The page slice of the application state: loading flag, page lists per archive id, error. */
  datatype PageSlice = PageSlice(
    loading: bool,
    archivePages: map<string, seq<string>>,
    errorCode: Option<ErrorCode>)

  /** The archive slice of the application state: archive items per id. */
  datatype ArchiveSlice = ArchiveSlice(archiveItems: map<string, ArchiveItem>)

  /** The application state, reduced to the fields the page model reads. */
  datatype AppState = AppState(page: PageSlice, archive: ArchiveSlice)
}
