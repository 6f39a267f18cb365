/** The object-storage requests the API routes make, as values. The storage
    service itself is not modelled: its answers are inputs of the routes. */
module Storage {

  /** The bucket both upload paths write to. */
  const Bucket: string := "cards"

  /** `storage.from(bucket).upload(key, bytes, { contentType, upsert })`;
      the bytes are not part of the model. */
  datatype UploadRequest = UploadRequest(bucket: string, key: string, contentType: string, upsert: bool)
}
