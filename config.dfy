/**
 * The deployment settings the upload path reads (`app.core.config.settings`).
 * The two others the modelled code reads are passed on their own:
 * S3_BUCKET_NAME is the location `dir` of the indexing functions, and
 * DATABASE_URL is the argument of `SyncDatabaseUrl`.
 */
module Config {

  datatype Settings = Settings(
    s3EndpointUrl: string,      // S3_ENDPOINT_URL
    s3AssetBucketName: string)  // S3_ASSET_BUCKET_NAME: where uploaded files go
}
