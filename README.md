# File-backed address-book store

A Dafny model of `StorageStub`, the file-backed store of the addressbook-level3
application. The store is built around a path to a text file. It loads an
`AddressBook` from that file and would save it back; `save` is still a stub in
this code.

The model has three modules:

- `Text` (`text.dfy`): the suffix test that Java's `String.endsWith` performs.
- `AddressBookData` (`address_book.dfy`): the collaborators the store uses but
  does not define. `AddressBook` holds an abstract sequence of persons.
  `AdaptedAddressBook` is the XML-mapped book, given by its two observations:
  - `anyRequiredFieldMissing` (the source's `isAnyRequiredFieldMissing`);
  - `modelType` (the result of `toModelType`: the converted book or an
    `IllegalValueException`).

  The disk is a `FileSystem` object whose `files` map each path to a
  `FileState`: `Missing`, `Unreadable`, `Malformed` or `Parsed(loaded)`. A path
  that is not in the map is `Missing`.
- `Storage` (`storage_stub.dfy`): the class `StorageStub` and its operations.
  - Its `path` is a constant of the subset type `StoragePath`, so no object can
    hold a path that does not end with `.txt`.
  - The source's throwing constructors are `Construct` and `ConstructDefault`.
    Each returns `Ok(storage)` or `Err(InvalidStorageFilePathException(..))`.
  - `Load` is the imperative dispatch over how reading the file ended. Its
    postcondition ties its result to `LoadResult`, which is
    `Classify` (which branch is taken) followed by the message that branch raises.

`Save` has no `modifies` clause, so the verifier holds it to changing nothing on
disk. The same goes for `Load`, which calls it.

The comment in `load` (src/seedu/addressbook/storage/StorageStub.java:74-82)
says that a missing file is created. The code does not create it, because its
`save` is empty. The model follows the code: after a first run the file is still
missing, and a second `load` takes the first-run branch again
(`LoadTwiceOnFirstRun`).

The source reports an `IOException` while reading with the message
`"Error writing to file: " + path`. The word "writing" is the source's own, and
the model keeps that text.

## Model

| member | source | states |
|---|---|---|
| `Text.EndsWithIffAppended` | src/seedu/addressbook/storage/StorageStub.java:58-60 | every stem followed by a suffix ends with it, and every string that ends with a suffix is its stem followed by the suffix |
| `Storage.ValidPathIff` | src/seedu/addressbook/storage/StorageStub.java:54-60 | `IsValidPath` (the source's `isValidPath`) holds of a path exactly when it is some stem followed by the literal `.txt` |
| `Storage.Construct` | src/seedu/addressbook/storage/StorageStub.java:41-52 | construction succeeds if and only if the path ends with `.txt`. The new object is fresh and holds that path; otherwise `InvalidStorageFilePathException("Storage file should end with '.txt'")` is raised and no object is produced |
| `Storage.ConstructDefault` | src/seedu/addressbook/storage/StorageStub.java:23-35 | the no-argument constructor delegates with `"addressbook.txt"`, never fails and returns a fresh store holding that path |
| `Storage.StorageStub.constructor` | src/seedu/addressbook/storage/StorageStub.java:48-51 | a store is built only from a path already of type `StoragePath`, and holds exactly that path |
| `Storage.StorageStub.GetPath` | src/seedu/addressbook/storage/StorageStub.java:98-101 | returns the immutable stored path, which always ends with `.txt` |
| `Storage.StorageStub.Save` | src/seedu/addressbook/storage/StorageStub.java:103-107 | never raises and leaves the disk unchanged |
| `Storage.StorageStub.Load` | src/seedu/addressbook/storage/StorageStub.java:62-96 | returns or raises exactly what the dispatch `LoadResult` gives for the file at the stored path. A success is either the first-run empty book or the converted book |
| `Storage.LoadOkIff` | src/seedu/addressbook/storage/StorageStub.java:64-86 | `LoadResult` (the dispatch `Classify` of `load` followed by its messages) returns a book in exactly two cases: the empty book when the file is missing; the `toModelType` result when the file parses, has no missing required field and converts |
| `Storage.FailureMessageInjective` | src/seedu/addressbook/storage/StorageStub.java:89-94 | `FailureMessage` gives the read-error, parse-error, missing-elements and illegal-values messages; they are pairwise distinct, and the read-error message determines its path |
| `Storage.LoadFailsIff` | src/seedu/addressbook/storage/StorageStub.java:69-95 | `LoadResult` raises a failure's message if and only if `Classify` sends the file state to that failure |
| `Storage.MissingFieldTakesPrecedence` | src/seedu/addressbook/storage/StorageStub.java:68-72 | a parsed book with a missing required field gives "File data missing some elements" whatever its conversion would give, never the illegal-values error |
| `Storage.LoadErrorKind` | src/seedu/addressbook/storage/StorageStub.java:62-96 | `load` raises only `StorageOperationException`. It returns the empty book only on a first run or when a parsed file is complete and converts to the empty book |
| `Storage.LoadTwiceOnFirstRun` | src/seedu/addressbook/storage/StorageStub.java:82-86 | when the file is missing, `load` returns the empty book without error. Since `save` writes nothing, the file stays missing and a second `load` returns the same empty book |

## Left out

- Creating the JAXB context at construction, and the `RuntimeException` raised when that fails: the serialisation library is not part of this model.
- Unmarshalling: what the unmarshaller does with the file's bytes is not modelled. Its outcome is the `FileState` of the path.
- The internals of `AdaptedAddressBook.isAnyRequiredFieldMissing`, `AdaptedAddressBook.toModelType` and `AddressBook`: those classes are not part of this model. They are given as values (`anyRequiredFieldMissing`, `modelType`, an abstract `Person`).
- Opening, buffering and closing the reader (try-with-resources): resource handling with no effect on the result beyond the `FileState` outcomes.
- `Paths.get` normalisation and its `InvalidPathException`: the path is kept as the string it was built from.
- Characters are Dafny characters, not Java's UTF-16 code units. `endsWith` on `.txt` compares the same way for both.
- The abstract class `Storage` (src/seedu/addressbook/storage/Storage.java:6-13): it declares `load`, `getPath` and `save` with no behaviour. The model puts those signatures directly on `StorageStub` and has no separate interface type.
- Any on-disk format, and a `save` that writes: the source's `save` is an empty stub.
