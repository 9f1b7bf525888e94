/**
 * The object store the services upload evidence to, taken as an abstract collaborator:
 * an upload names a folder and a file name and yields the path `folder/fileName`, or
 * fails, and a signed link to a path is issued or refused. Which paths the store
 * refuses to take or to sign is fixed when the store is built.
 */
module Storage {
  import opened Wrappers
  import opened Errors

  /** Validity window of a signed download link, in seconds. */
  const SignedUrlSeconds: nat := 300

  datatype SignedUrl = SignedUrl(path: string, expiresIn: nat)

  /** The path an upload to folder under fileName is stored at. */
  function ObjectPath(folder: string, fileName: string): string {
    folder + "/" + fileName
  }

  class StorageService {
    /** The paths whose upload the store refuses. */
    const refuses: set<string>
    /** The paths the store issues no signed link for (no such object, or a store error). */
    const refusesSigning: set<string>
    /** Every successful upload, in order (an upsert: a path may appear twice). */
    var objects: seq<string>

    constructor(refuses: set<string>, refusesSigning: set<string>)
      ensures this.refuses == refuses && this.refusesSigning == refusesSigning && objects == []
    {
      this.refuses := refuses;
      this.refusesSigning := refusesSigning;
      objects := [];
    }

    method UploadFile(folder: string, fileName: string) returns (r: Result<string, HttpError>)
      modifies this
      ensures var path := ObjectPath(folder, fileName);
        if path in refuses then r == Failure(StorageFailure(path)) && objects == old(objects)
        else r == Success(path) && objects == old(objects) + [path]
    {
      var path := ObjectPath(folder, fileName);
      if path in refuses {
        return Failure(StorageFailure(path));
      }
      objects := objects + [path];
      return Success(path);
    }

    /** A link to the object at path, valid for five minutes; a store error is rethrown. */
    function CreateSignedUrl(path: string): (r: Result<SignedUrl, HttpError>)
      ensures r.Success? <==> path !in refusesSigning
      ensures r.Success? ==> r.value.path == path && r.value.expiresIn == 300
      ensures r.Failure? ==> r.error == StorageFailure(path)
    {
      if path in refusesSigning then Failure(StorageFailure(path))
      else Success(SignedUrl(path, SignedUrlSeconds))
    }
  }
}
