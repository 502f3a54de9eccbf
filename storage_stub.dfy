/** The file-backed address-book store: path validation at construction, the
    outcome dispatch of load, getPath, and the stub save. */
module Storage {
  import opened Text
  import opened AddressBookData

  /** Path used when the caller gives none. */
  const DefaultStorageFilePath: string := "addressbook.txt"

  /** The one suffix a storage path may end with (case-sensitive). */
  const StorageFileSuffix: string := ".txt"

  const InvalidPathMessage: string := "Storage file should end with '.txt'"
  const MissingElementsMessage: string := "File data missing some elements"
  const ParseErrorMessage: string := "Error parsing file data format"
  const IllegalValuesMessage: string := "File contains illegal data values; " + "data type constraints not met"
  const ReadErrorPrefix: string := "Error writing to file: "

  /** The two checked exceptions the store raises, each with its message. */
  datatype StorageException =
    | InvalidStorageFilePathException(message: string)
    | StorageOperationException(message: string)

  /** A value, or the exception raised instead of it. */
  datatype Result<T> = Ok(value: T) | Err(error: StorageException)

  /** The completion of a void operation that may throw. */
  datatype Outcome = Pass | Fail(error: StorageException)

  /** isValidPath: a storage file path must end with ".txt". */
  predicate IsValidPath(filePath: string)
  {
    EndsWith(filePath, StorageFileSuffix)
  }

  /** A path that has passed the construction-time check. */
  type StoragePath = p: string | IsValidPath(p) witness "addressbook.txt"

  /** A path is valid exactly when it is some stem followed by ".txt": the suffix
      law of EndsWith, taken at the storage suffix. */
  lemma ValidPathIff(filePath: string)
    ensures IsValidPath(filePath + ".txt")
    ensures IsValidPath(filePath) ==> filePath == filePath[..|filePath| - 4] + ".txt"
  {
    EndsWithIffAppended(filePath, StorageFileSuffix);
  }

  /** The ways load can fail, one per caught exception. */
  datatype Failure = ReadFailure | ParseFailure | MissingElements | IllegalValues

  /** Which branch of load a file state leads to. */
  datatype LoadOutcome = FirstRun | Failed(failure: Failure) | Loaded(book: AddressBook)

  /** The dispatch of load: a missing file is a first run; an I/O error, a parse error,
      a missing required field (checked before any conversion) and an illegal value
      on conversion each fail; otherwise the converted book is the result. */
  function Classify(file: FileState): LoadOutcome
  {
    match file
    case Missing => FirstRun
    case Unreadable => Failed(ReadFailure)
    case Malformed => Failed(ParseFailure)
    case Parsed(loaded) =>
      if loaded.anyRequiredFieldMissing then Failed(MissingElements)
      else match loaded.modelType
        case IllegalValue(_) => Failed(IllegalValues)
        case Converted(book) => Loaded(book)
  }

  /** The message of the StorageOperationException load raises for a failure. */
  function FailureMessage(failure: Failure, path: string): string
  {
    match failure
    case ReadFailure => ReadErrorPrefix + path
    case ParseFailure => ParseErrorMessage
    case MissingElements => MissingElementsMessage
    case IllegalValues => IllegalValuesMessage
  }

  /** What load returns or raises for a file state at a path. */
  function LoadResult(files: map<string, FileState>, path: string): Result<AddressBook>
  {
    match Classify(FileAt(files, path))
    case FirstRun => Ok(EmptyAddressBook)
    case Failed(failure) => Err(StorageOperationException(FailureMessage(failure, path)))
    case Loaded(book) => Ok(book)
  }

  /** The four failure messages are pairwise distinct, and the read-failure message
      names its path, so a message identifies both the failure and the path. */
  lemma FailureMessageInjective(f1: Failure, path1: string, f2: Failure, path2: string)
    requires FailureMessage(f1, path1) == FailureMessage(f2, path2)
    ensures f1 == f2
    ensures f1 == ReadFailure ==> path1 == path2
  {
    var m := FailureMessage(f1, path1);
    // the lengths of the three fixed messages differ, and the seventh character
    // sets the read-failure message apart from all of them
    assert |MissingElementsMessage| == 31 && |IllegalValuesMessage| == 64 && |ParseErrorMessage| == 30;
    assert ParseErrorMessage[6] == 'p' && MissingElementsMessage[6] == 'a' && IllegalValuesMessage[6] == 'o';
    if f1 == ReadFailure {
      assert m[6] == 'w';
    }
    if f2 == ReadFailure {
      assert m[6] == 'w';
    }
    if f1 == ReadFailure && f2 == ReadFailure {
      assert path1 == m[|ReadErrorPrefix|..] == path2;
    }
  }

  /** load succeeds exactly on the first-run path (with the empty book) and on the
      path where the file parses, is complete and converts (with the converted book). */
  lemma LoadOkIff(files: map<string, FileState>, path: string, book: AddressBook)
    ensures LoadResult(files, path) == Ok(book) <==>
      (FileAt(files, path) == Missing && book == EmptyAddressBook) ||
      (FileAt(files, path).Parsed? &&
       !FileAt(files, path).loaded.anyRequiredFieldMissing &&
       FileAt(files, path).loaded.modelType == Converted(book))
  {
  }

  /** load raises the message of a failure exactly when the file state leads to that
      failure: no two failures share a message. */
  lemma LoadFailsIff(files: map<string, FileState>, path: string, failure: Failure)
    ensures LoadResult(files, path) == Err(StorageOperationException(FailureMessage(failure, path))) <==>
      Classify(FileAt(files, path)) == Failed(failure)
  {
    if LoadResult(files, path) == Err(StorageOperationException(FailureMessage(failure, path))) {
      var other := Classify(FileAt(files, path)).failure;
      FailureMessageInjective(other, path, failure, path);
    }
  }

  /** A parsed book with a missing required field gives the missing-elements error
      whatever its conversion would give, and never the illegal-value error. */
  lemma MissingFieldTakesPrecedence(files: map<string, FileState>, path: string, modelType: Conversion)
    requires FileAt(files, path) == Parsed(AdaptedAddressBook(true, modelType))
    ensures LoadResult(files, path) == Err(StorageOperationException(MissingElementsMessage))
    ensures LoadResult(files, path) != Err(StorageOperationException(IllegalValuesMessage))
  {
  }

  /** load never raises InvalidStorageFilePathException, and the only success value it
      invents is the empty book of a first run. */
  lemma LoadErrorKind(files: map<string, FileState>, path: string)
    ensures LoadResult(files, path).Err? ==> LoadResult(files, path).error.StorageOperationException?
    ensures LoadResult(files, path) == Ok(EmptyAddressBook) ==>
      FileAt(files, path) == Missing ||
      (FileAt(files, path).Parsed? &&
       !FileAt(files, path).loaded.anyRequiredFieldMissing &&
       FileAt(files, path).loaded.modelType == Converted(EmptyAddressBook))
  {
  }

  /** The file-backed store. Its path is fixed at construction and always valid. */
  class StorageStub {
    /** The storage file; final in the source, so a constant here. */
    const path: StoragePath

    /** The constructor body that runs once the path has passed isValidPath. */
    constructor (filePath: StoragePath)
      ensures path == filePath
    {
      path := filePath;
    }

    /** getPath: the stored path, which always ends with ".txt". */
    function GetPath(): (r: string)
      ensures IsValidPath(r)
      ensures r == path
    {
      path
    }

    /** save: a stub that writes nothing and never raises. Having no modifies clause,
        it cannot change the disk. */
    method Save(disk: FileSystem, addressBook: AddressBook) returns (r: Outcome)
      ensures r == Pass
      ensures disk.files == old(disk.files)
    {
      r := Pass;
    }

    /** load: read the file at path, dispatch over how reading ended, and on a first run
        save and return an empty book. It changes nothing on the disk. */
    method Load(disk: FileSystem) returns (r: Result<AddressBook>)
      ensures r == LoadResult(disk.files, path)
      ensures r.Ok? ==> Classify(FileAt(disk.files, path)) in {FirstRun, Loaded(r.value)}
    {
      var file := FileAt(disk.files, path);
      match file {
        case Missing =>
          var empty := EmptyAddressBook;
          var saved := Save(disk, empty);
          match saved {
            case Pass => return Ok(empty);
            case Fail(e) => return Err(e);
          }
        case Unreadable =>
          return Err(StorageOperationException(ReadErrorPrefix + path));
        case Malformed =>
          return Err(StorageOperationException(ParseErrorMessage));
        case Parsed(loaded) =>
          if loaded.anyRequiredFieldMissing {
            return Err(StorageOperationException(MissingElementsMessage));
          }
          match loaded.modelType {
            case IllegalValue(_) =>
              return Err(StorageOperationException(IllegalValuesMessage));
            case Converted(book) =>
              return Ok(book);
          }
      }
    }
  }

  /** StorageStub(String filePath): builds a store, or raises
      InvalidStorageFilePathException, producing no object, when the path does not end
      with ".txt". */
  method Construct(filePath: string) returns (r: Result<StorageStub>)
    ensures r.Ok? <==> IsValidPath(filePath)
    ensures r.Ok? ==> fresh(r.value) && r.value.path == filePath
    ensures r.Err? ==> r.error == InvalidStorageFilePathException(InvalidPathMessage)
  {
    if !IsValidPath(filePath) {
      return Err(InvalidStorageFilePathException(InvalidPathMessage));
    }
    var storage := new StorageStub(filePath);
    return Ok(storage);
  }

  /** StorageStub(): the same construction on the default path, which never fails. */
  method ConstructDefault() returns (r: Result<StorageStub>)
    ensures r.Ok? && fresh(r.value) && r.value.path == DefaultStorageFilePath
  {
    r := Construct(DefaultStorageFilePath);
  }

  /** Because save writes nothing, a first-run load leaves the file missing, and a
      second load takes the first-run path again with the same empty book. */
  method LoadTwiceOnFirstRun(storage: StorageStub, disk: FileSystem)
    returns (first: Result<AddressBook>, second: Result<AddressBook>)
    requires FileAt(disk.files, storage.path) == Missing
    ensures first == Ok(EmptyAddressBook) && second == first
    ensures FileAt(disk.files, storage.path) == Missing
  {
    first := storage.Load(disk);
    second := storage.Load(disk);
  }
}
