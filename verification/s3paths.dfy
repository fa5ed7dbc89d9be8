/** The string rules of the client: splitting "bucket/key" paths, the
    trailing slash that bucket requests need, and the listing URI. */
module S3Paths {
  import opened Common

  /** An object path split into its bucket and its key. */
  datatype S3Path = S3Path(bucket: string, key: string)

  /** A bucket-level request: the HTTP verb and the (not yet URI-encoded) path. */
  datatype BucketRequest = BucketRequest(verb: string, path: string)

  /** The index of the first '/' in s, as String.prototype.indexOf finds it. */
  function FirstSlash(s: string): (r: Option<nat>)
    ensures r.Some? ==> r.value < |s|
  {
    if |s| == 0 then None
    else if s[0] == '/' then Some(0)
    else match FirstSlash(s[1..])
      case None => None
      case Some(i) => Some(i + 1)
  }

  /** FirstSlash finds a slash exactly when there is one, and no slash
      comes before the one it finds. */
  lemma {:induction false} FirstSlashFinds(s: string)
    ensures FirstSlash(s).None? <==> '/' !in s
    ensures FirstSlash(s).Some? ==>
      FirstSlash(s).value < |s| && s[FirstSlash(s).value] == '/' && '/' !in s[..FirstSlash(s).value]
  {
    if |s| > 0 && s[0] != '/' {
      FirstSlashFinds(s[1..]);
      assert s == [s[0]] + s[1..];
      if FirstSlash(s[1..]).Some? {
        var i := FirstSlash(s[1..]).value;
        assert s[..i + 1] == [s[0]] + s[1..][..i];
      }
    }
  }

  /** Splits a path at its first slash: the bucket before it, the key after it. */
  function ParseS3Path(s: string): (r: Result<S3Path, Error>)
    ensures r.Failure? ==> r.error == InvalidPath
    ensures r.Success? ==> |r.value.bucket| + 1 + |r.value.key| == |s|
  {
    match FirstSlash(s)
    case None => Failure(InvalidPath)
    case Some(i) => Success(S3Path(s[..i], s[i + 1..]))
  }

  /** Parsing fails exactly on a path without a slash; otherwise the bucket
      has no slash and bucket + "/" + key gives back the path. */
  lemma ParseS3PathSplits(s: string)
    ensures ParseS3Path(s).Failure? <==> '/' !in s
    ensures ParseS3Path(s).Failure? ==> ParseS3Path(s).error == InvalidPath
    ensures ParseS3Path(s).Success? ==>
      ParseS3Path(s).value.bucket + "/" + ParseS3Path(s).value.key == s && '/' !in ParseS3Path(s).value.bucket
  {
    FirstSlashFinds(s);
    if FirstSlash(s).Some? {
      var i := FirstSlash(s).value;
      assert s == s[..i] + "/" + s[i + 1..];
    }
  }

  /** Joining a slash-free bucket and any key with '/' parses back to the
      same bucket and key. */
  lemma ParseJoin(bucket: string, key: string)
    requires '/' !in bucket
    ensures ParseS3Path(bucket + "/" + key) == Success(S3Path(bucket, key))
  {
    var s := bucket + "/" + key;
    ParseS3PathSplits(s);
    assert s[|bucket|] == '/';
    var r := ParseS3Path(s);
    var b := r.value.bucket;
    // Both b and bucket are slash-free prefixes of s followed by '/', so they
    // have the same length.
    assert s[|bucket|] == '/' && s[|b|] == '/';
    assert b == s[..|b|] == bucket;
    assert r.value.key == s[|b| + 1..] == key;
  }

  function EndsWithSlash(s: string): (b: bool) {
    |s| > 0 && s[|s| - 1] == '/'
  }

  /** The bucket name a bucket-level request uses: a '/' is appended unless
      the name already ends with one (the empty name becomes "/"). */
  function WithTrailingSlash(bucket: string): (r: string)
    ensures EndsWithSlash(r)
    ensures r == bucket <==> EndsWithSlash(bucket)
    ensures r == bucket || r == bucket + "/"
  {
    if EndsWithSlash(bucket) then bucket else bucket + "/"
  }

  lemma TrailingSlashIdempotent(bucket: string)
    ensures WithTrailingSlash(WithTrailingSlash(bucket)) == WithTrailingSlash(bucket)
    ensures WithTrailingSlash("") == "/"
  {
  }

  /** The path of a bucket-level request always parses, and for a slash-free
      bucket name it parses to that bucket with an empty key. */
  lemma TrailingSlashParses(bucket: string)
    ensures ParseS3Path(WithTrailingSlash(bucket)).Success?
    ensures '/' !in bucket ==> ParseS3Path(WithTrailingSlash(bucket)) == Success(S3Path(bucket, ""))
  {
    ParseS3PathSplits(WithTrailingSlash(bucket));
    if '/' !in bucket {
      assert WithTrailingSlash(bucket) == bucket + "/" + "";
      ParseJoin(bucket, "");
    }
  }

  /** makeBucket: a PUT on the bucket name with its trailing slash. */
  function MakeBucketRequest(bucket: string): (r: BucketRequest)
    ensures r.verb == "PUT" && r.path == WithTrailingSlash(bucket)
    ensures EndsWithSlash(r.path)
    ensures ParseS3Path(r.path).Success?
    ensures '/' !in bucket ==> ParseS3Path(r.path) == Success(S3Path(bucket, ""))
  {
    TrailingSlashParses(bucket);
    BucketRequest("PUT", WithTrailingSlash(bucket))
  }

  /** deleteBucket: a DELETE on the bucket name with its trailing slash. */
  function DeleteBucketRequest(bucket: string): (r: BucketRequest)
    ensures r.verb == "DELETE" && r.path == WithTrailingSlash(bucket)
    ensures EndsWithSlash(r.path)
    ensures ParseS3Path(r.path).Success?
    ensures '/' !in bucket ==> ParseS3Path(r.path) == Success(S3Path(bucket, ""))
  {
    TrailingSlashParses(bucket);
    BucketRequest("DELETE", WithTrailingSlash(bucket))
  }

  /** The part of a listing URI that names the bucket and the prefix. */
  function ListBase(p: S3Path): (base: string) {
    p.bucket + "/?prefix=" + p.key
  }

  /** The listing URI for one page: the marker is added only when it is truthy. */
  function ListUri(p: S3Path, marker: Option<string>): (uri: string)
    ensures ListBase(p) <= uri
    ensures uri == ListBase(p) <==> !Truthy(marker)
    ensures Truthy(marker) ==> uri == ListBase(p) + "&marker=" + marker.value
  {
    var base := ListBase(p);
    if Truthy(marker) then base + "&marker=" + marker.value else base
  }

  /** The request made with a listing URI parses back to the listing's own
      bucket, so building the request never fails on the path. */
  lemma ListUriParses(p: S3Path, marker: Option<string>)
    requires '/' !in p.bucket
    ensures ParseS3Path(ListUri(p, marker)).Success?
    ensures ParseS3Path(ListUri(p, marker)).value.bucket == p.bucket
  {
    var rest := "?prefix=" + p.key + (if Truthy(marker) then "&marker=" + marker.value else "");
    assert ListUri(p, marker) == p.bucket + "/" + rest;
    ParseS3PathSplits(ListUri(p, marker));
    ParseJoin(p.bucket, rest);
  }

  /** Distinct truthy markers give distinct listing URIs, and a truthy marker
      never gives the URI of a request without one. */
  lemma ListUriMarkerInjective(p: S3Path, m1: Option<string>, m2: Option<string>)
    requires Truthy(m1)
    requires ListUri(p, m1) == ListUri(p, m2)
    ensures m1 == m2
  {
    var base := ListBase(p) + "&marker=";
    assert Truthy(m2);
    assert ListUri(p, m1) == base + m1.value;
    assert ListUri(p, m2) == base + m2.value;
    assert m1.value == (base + m1.value)[|base|..];
    assert m2.value == (base + m2.value)[|base|..];
  }
}
