/** The public URL of an uploaded object. */
module FileUtils {
  import opened Config
  import opened Strings

  /**
   * `get_Document_url`: the endpoint, the bucket and the file name joined by
   * "/". The bucket defaults to the asset bucket and the file name to "".
   */
  function DocumentUrl(settings: Settings, bucketName: string := settings.s3AssetBucketName, fileName: string := ""): (url: string)
    ensures StartsWith(url, settings.s3EndpointUrl + "/" + bucketName + "/")
    ensures EndsWith(url, "/" + fileName)
    ensures |url| == |settings.s3EndpointUrl| + |bucketName| + |fileName| + 2
  {
    settings.s3EndpointUrl + "/" + bucketName + "/" + fileName
  }

  /** With every default taken, the URL is the asset bucket's, ending in "/". */
  lemma DefaultDocumentUrl(settings: Settings)
    ensures DocumentUrl(settings) == settings.s3EndpointUrl + "/" + settings.s3AssetBucketName + "/"
    ensures EndsWith(DocumentUrl(settings), "/")
  {
  }

  /**
   * For one endpoint and bucket, distinct file names give distinct URLs: the
   * URL names its file, and uploading the same file name again names the same
   * document.
   */
  lemma DocumentUrlInjective(settings: Settings, bucketName: string, a: string, b: string)
    ensures DocumentUrl(settings, bucketName, a) == DocumentUrl(settings, bucketName, b) <==> a == b
  {
    var prefix := settings.s3EndpointUrl + "/" + bucketName + "/";
    if DocumentUrl(settings, bucketName, a) == DocumentUrl(settings, bucketName, b) {
      assert DocumentUrl(settings, bucketName, a)[|prefix|..] == a;
      assert DocumentUrl(settings, bucketName, b)[|prefix|..] == b;
    }
  }
}
