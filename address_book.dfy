/** The collaborators the file-backed store works with but does not define: the
    in-memory address book, its XML-mapped form, and the disk it is read from. */
module AddressBookData {

  /** A stored contact; its fields belong to the domain model and are not looked into here. */
  type Person

  /** The in-memory address book handed to and returned by the store. */
  datatype AddressBook = AddressBook(persons: seq<Person>)

  /** What `new AddressBook()` builds: a book with no contacts. */
  const EmptyAddressBook: AddressBook := AddressBook([])

  /** The result of converting the XML-mapped book into the domain model:
      either the book, or the IllegalValueException a failed value check raises. */
  datatype Conversion = Converted(book: AddressBook) | IllegalValue(message: string)

  /** The XML-mapped book as the unmarshaller produces it. Its two observations are
      the completeness check (isAnyRequiredFieldMissing) and the conversion
      (toModelType); both are given as values because their code is not modelled. */
  datatype AdaptedAddressBook = AdaptedAddressBook(anyRequiredFieldMissing: bool, modelType: Conversion)

  /** How reading the file at a path can end, before any checks of the store run.
      Missing: opening it raised FileNotFoundException (absent, a directory, or not
      openable); Unreadable: some other IOException while reading, or while closing
      a reader whose block ended normally (when the block itself threw, that
      exception wins and the close failure is suppressed, so such a file is
      described by the state the block's own outcome gives); Malformed: the
      unmarshaller raised JAXBException; Parsed: it produced a book. */
  datatype FileState = Missing | Unreadable | Malformed | Parsed(loaded: AdaptedAddressBook)

  /** The disk: what each path holds. A path not in the map holds no file. */
  class FileSystem {
    var files: map<string, FileState>
  }

  /** The state of the file at a path; a path that is not in the map is missing. */
  function FileAt(files: map<string, FileState>, path: string): FileState
  {
    if path in files then files[path] else Missing
  }
}
