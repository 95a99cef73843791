/**
 * The two upload routines that move a video from the local scratch directory to
 * durable storage (an S3-compatible bucket, or a Drive folder), and delete the
 * local temp file whether the upload worked or not.
 *
 * The storage SDKs are not modelled: each remote call is a `Call` parameter that
 * says whether it succeeded and, if not, with which error message. Deleting a
 * file can itself fail; `unlinkSucceeds` says whether it does.
 */
module ObjectStore {
  import opened Wrappers
  import opened Text
  import opened VideoNaming

  /** What the bucket upload returns: the public URL and the object key. */
  datatype R2Upload = R2Upload(fileUrl: string, fileName: string)

  /** What the Drive upload returns. */
  datatype DriveUpload = DriveUpload(fileId: string, webViewLink: string, webContentLink: string)

  /** A file in the Drive folder; `public` once "anyone with the link" may read it. */
  datatype DriveFile = DriveFile(id: string, name: string, mimeType: string, parent: string, public: bool)

  const R2ErrorPrefix: string := "Failed to upload video to Cloudflare R2: "
  const DriveErrorPrefix: string := "Failed to upload video to Google Drive: "

  /** The message Node's file system gives when the file to read does not exist. */
  function MissingFileMessage(path: string): string {
    "ENOENT: no such file or directory, open '" + path + "'"
  }

  /** The public address of an object in the bucket. */
  function R2PublicUrl(accountId: string, key: string): string {
    "https://pub-" + accountId + ".r2.dev/" + key
  }

  class UploadHost {
    /** Paths of the files in the local scratch directory. */
    var tempFiles: set<string>
    /** The bucket: object key to content type. */
    var bucket: map<string, string>
    /** The Drive folder's files, oldest first. */
    var driveFiles: seq<DriveFile>

    constructor (files: set<string>)
      ensures tempFiles == files && bucket == map[] && driveFiles == []
    {
      tempFiles := files;
      bucket := map[];
      driveFiles := [];
    }

    /** `fs.unlinkSync(filePath)` inside a try whose catch only logs. */
    method Unlink(filePath: string, unlinkSucceeds: bool)
      modifies this`tempFiles
      ensures tempFiles == if unlinkSucceeds then old(tempFiles) - {filePath} else old(tempFiles)
    {
      if unlinkSucceeds {
        tempFiles := tempFiles - {filePath};
      }
    }

    /**
     * `uploadVideoToR2`: read the temp file, put it under `founders/` or `seekers/`,
     * delete the temp file on the success path and (if it still exists) on the
     * failure path, and rethrow any failure with the service's prefix.
     */
    method UploadVideoToR2(filePath: string, fileName: string, mimeType: string, folderType: string,
                           accountId: string, put: Call, unlinkSucceeds: bool)
      returns (r: Result<R2Upload, string>)
      modifies this`tempFiles, this`bucket
      ensures r.Ok? <==> filePath in old(tempFiles) && put.Succeeds?
      ensures r.Ok? ==>
        && r.value.fileName == R2Key(folderType, fileName)
        && r.value.fileUrl == R2PublicUrl(accountId, R2Key(folderType, fileName))
        && bucket == old(bucket)[R2Key(folderType, fileName) := mimeType]
      ensures r.Err? ==>
        && bucket == old(bucket)
        && StartsWith(r.error, R2ErrorPrefix)
        && r.error == R2ErrorPrefix + (if filePath !in old(tempFiles) then MissingFileMessage(filePath) else put.message)
      ensures unlinkSucceeds ==> tempFiles == old(tempFiles) - {filePath}
      ensures !unlinkSucceeds ==> tempFiles == old(tempFiles)
    {
      var key := R2FolderPrefix(folderType) + fileName;
      if filePath !in tempFiles {
        // readFileSync throws; the catch finds no file to delete
        r := Err(R2ErrorPrefix + MissingFileMessage(filePath));
        assert StartsWith(r.error, R2ErrorPrefix);
        return;
      }
      match put {
        case Fails(message) =>
          if filePath in tempFiles {
            Unlink(filePath, unlinkSucceeds);
          }
          r := Err(R2ErrorPrefix + message);
          assert StartsWith(r.error, R2ErrorPrefix);
        case Succeeds =>
          bucket := bucket[key := mimeType];
          var publicUrl := R2PublicUrl(accountId, key);
          Unlink(filePath, unlinkSucceeds);
          r := Ok(R2Upload(publicUrl, key));
      }
    }

    /**
     * `uploadVideoToDrive`: create `FOUNDER_`/`SEEKER_` + fileName in the parent
     * folder from the temp file, make it readable by anyone with the link, delete
     * the temp file on both paths, and rethrow any failure with the service's prefix.
     * A file created before the permission call failed stays in the folder.
     */
    method UploadVideoToDrive(filePath: string, fileName: string, mimeType: string, folderType: string,
                              parentFolderId: string, create: Call, created: DriveUpload,
                              permission: Call, unlinkSucceeds: bool)
      returns (r: Result<DriveUpload, string>)
      modifies this`tempFiles, this`driveFiles
      ensures r.Ok? <==> filePath in old(tempFiles) && create.Succeeds? && permission.Succeeds?
      ensures r.Ok? ==>
        && r.value == created
        && driveFiles == old(driveFiles) + [DriveFile(created.fileId, DriveFileName(folderType, fileName), mimeType, parentFolderId, true)]
      ensures r.Err? ==>
        && StartsWith(r.error, DriveErrorPrefix)
        && r.error == DriveErrorPrefix +
             (if filePath !in old(tempFiles) then MissingFileMessage(filePath)
              else if create.Fails? then create.message else permission.message)
        && driveFiles == if filePath in old(tempFiles) && create.Succeeds?
                         then old(driveFiles) + [DriveFile(created.fileId, DriveFileName(folderType, fileName), mimeType, parentFolderId, false)]
                         else old(driveFiles)
      ensures unlinkSucceeds ==> tempFiles == old(tempFiles) - {filePath}
      ensures !unlinkSucceeds ==> tempFiles == old(tempFiles)
    {
      var prefixedFileName := DriveFilePrefix(folderType) + fileName;
      if filePath !in tempFiles {
        // the read stream fails while the file is being created
        r := Err(DriveErrorPrefix + MissingFileMessage(filePath));
        assert StartsWith(r.error, DriveErrorPrefix);
        return;
      }
      if create.Fails? {
        Unlink(filePath, unlinkSucceeds);
        r := Err(DriveErrorPrefix + create.message);
        assert StartsWith(r.error, DriveErrorPrefix);
        return;
      }
      driveFiles := driveFiles + [DriveFile(created.fileId, prefixedFileName, mimeType, parentFolderId, false)];
      if permission.Fails? {
        Unlink(filePath, unlinkSucceeds);
        r := Err(DriveErrorPrefix + permission.message);
        assert StartsWith(r.error, DriveErrorPrefix);
        return;
      }
      driveFiles := driveFiles[|driveFiles| - 1 := driveFiles[|driveFiles| - 1].(public := true)];
      Unlink(filePath, unlinkSucceeds);
      r := Ok(created);
    }
  }
}
