# knox client core in Dafny

This project models the key-listing core of the knox object-storage client (`lib/knox/client.js`), together with the small string rules around it:

- **Client construction.** The access key and the secret are required, and the key is checked first. The endpoint defaults to `s3.amazonaws.com` and the port is 80.
- **Object paths.** `parseS3Path` splits `bucket/key` at the first slash and rejects a path that has none.
- **Bucket requests.** `makeBucket` and `deleteBucket` add a trailing `/` to the bucket name when it lacks one.
- **Single-page listing.** `reqKeysWithPrefix` builds the URI `bucket/?prefix=<prefix>` and appends `&marker=<marker>` only for a truthy marker. It then turns the parsed listing document into a page `{keys, isTruncated}`:
  - a missing `Contents` gives no keys;
  - a single object gives one key;
  - an array gives one key per entry, in order;
  - `IsTruncated` counts only when it is the text `"true"`.
- **Paginator.** `getKeysWithPrefix` requests pages one after another:
  - it drops a first key that echoes the marker it sent;
  - it collects each page's remaining keys;
  - it stops at the first page that is not truncated;
  - it fails when a truncated page has no key left, or when the next marker is empty or equals the marker it just sent.

The modules:

- `Common` (common.dfy) holds `Option`, `Result`, the client's `Error` values and JavaScript truthiness of an optional string.
- `S3Paths` (s3paths.dfy) holds path splitting, the bucket trailing slash and the listing URI, as pure functions with lemmas.
- `ClientConfig` (client_config.dfy) holds the constructor, as a function from the options to a client or an error.
- `Listing` (listing.dfy) holds the listing. Page normalisation is an imperative method with a loop. It is proved equal to the specification function `PageOf`. The paginator works in three layers:
  1. `HandlePage` is the callback of one round. It drops the echo, applies the guards and is proved equal to `Round`.
  2. `GetKeysWithPrefix` is a `while` loop. It keeps a list of per-page key lists and the current marker. It is proved equal to the recursive specification `Walk`.
  3. `Walk` is stated over any per-marker decision function `Rounds`. It is related to a second, trace-based description:
     - a *chain* of markers in which each marker is the last kept key of the page before;
     - the listing is the concatenation of the chain's kept keys when the chain ends at a page that is not truncated;
     - otherwise it is the error of the chain's last round.

The server is a parameter `fetch: string -> Result<ListDoc, string>`. It stands for the HTTP request, the response buffering and the XML parse together. It answers the listing URI of a request with a parsed document or an error message. No page list is ever returned together with an error.

In the source, `getKeysWithPrefix` pushes a page's keys before it checks the guards. The model pushes them after the guards pass. This makes no observable difference, because a failed listing discards the accumulator. The infinite-loop guard (line 256) rejects an empty next marker as well as a repeated one, and the model follows the code.

## Model

| member | source | states |
|---|---|---|
| `S3Paths.FirstSlashFinds` | lib/knox/client.js:55 | `indexOf('/')` finds nothing exactly when there is no slash; the index it finds holds a slash and no slash comes before it |
| `S3Paths.ParseS3Path` | lib/knox/client.js:54-60 | a failed split reports only the invalid-key error; a successful split uses every character of the path except one separator |
| `S3Paths.ParseS3PathSplits` | lib/knox/client.js:54-60 | parsing fails, with the invalid-key error, exactly when the path has no slash; otherwise `bucket + "/" + key` is the path and the bucket has no slash |
| `S3Paths.ParseJoin` | lib/knox/client.js:54-60 | round trip: a slash-free bucket joined to any key with `/` parses back to that bucket and key |
| `S3Paths.WithTrailingSlash` | lib/knox/client.js:107-109 | the result ends in `/`, equals the input exactly when the input already ends in `/`, and otherwise is the input plus one `/` |
| `S3Paths.TrailingSlashIdempotent` | lib/knox/client.js:131-133 | normalising twice is normalising once; the empty name becomes `"/"` |
| `S3Paths.TrailingSlashParses` | lib/knox/client.js:107-111 | a normalised bucket path always parses, and a slash-free name parses to that bucket with an empty key |
| `S3Paths.MakeBucketRequest` | lib/knox/client.js:105-111 | makeBucket issues a PUT on exactly the slash-normalised bucket name, so a name such as `"photos/"` is used unchanged; the path ends in `/` and parses, and a slash-free name parses to that bucket with an empty key |
| `S3Paths.DeleteBucketRequest` | lib/knox/client.js:129-135 | deleteBucket issues a DELETE on exactly the slash-normalised bucket name; the path ends in `/` and parses, and a slash-free name parses to that bucket with an empty key |
| `S3Paths.ListUri` | lib/knox/client.js:163-166 | the listing URI is `bucket + "/?prefix=" + prefix`, followed by exactly `"&marker=" + marker` when the marker is truthy and by nothing otherwise |
| `S3Paths.ListUriParses` | lib/knox/client.js:160-167 | the request built from a listing URI parses to the listing's own bucket, so the path split in the request never fails |
| `S3Paths.ListUriMarkerInjective` | lib/knox/client.js:163-166 | when one of two markers is truthy, the two listing URIs are equal only if the markers are equal, so each page request names its marker unambiguously |
| `ClientConfig.NewClient` | lib/knox/client.js:39-52 | fails with the key error exactly when the key is missing or empty; fails with the secret error exactly when the key is present and the secret is missing or empty; otherwise succeeds with port 80, the options' endpoint if truthy or `s3.amazonaws.com`, a non-empty endpoint, and the given credentials |
| `Listing.PageOf` | lib/knox/client.js:199-214 | absent `Contents` gives no keys, a single object one key, an array one key per entry in document order; `isTruncated` holds exactly when `IsTruncated` is the text `"true"` |
| `Listing.SingleObjectAsArray` | lib/knox/client.js:202-205 | a single-object `Contents` gives the same page as a one-element array |
| `Listing.NormalizePage` | lib/knox/client.js:199-214 | the key-collecting loop builds exactly the page `PageOf` describes |
| `Listing.PageFor` | lib/knox/client.js:160-216 | a single-page request fails only with the invalid-path error or a transport/parse error |
| `Listing.PageForRequests` | lib/knox/client.js:160-216 | the single-page request fails on the path exactly when the path has no slash; otherwise it asks the server for the listing URI of the path's bucket and prefix, and its result is exactly the normalised page of the document the server sent, or the server's error |
| `Listing.ReqKeysWithPrefix` | lib/knox/client.js:154-225 | the request method returns exactly the result `PageFor` describes, whose page value `PageForRequests` fixes |
| `Listing.DropEcho` | lib/knox/client.js:243-245 | the first key is removed exactly when the page is non-empty and that key equals the marker sent; otherwise the keys are kept; with no marker nothing is removed |
| `Listing.Decide` | lib/knox/client.js:243-261 | with k the keys after the echo is dropped: the round finishes with k exactly when the page is not truncated; it fails with the truncated-empty error exactly when a truncated page leaves k empty; it fails with the infinite-loop error exactly when k's last key is empty or equals the marker sent; otherwise it continues with k and k's last key as the next marker |
| `Listing.Round` | lib/knox/client.js:234-265 | when the single-page request fails, the round fails with exactly the error the request reported; a round fails with a path or transport error only then, and otherwise fails only with the two guard errors |
| `Listing.HandlePage` | lib/knox/client.js:234-265 | the callback's request, echo drop, guards and continuation decide exactly what `Round` describes |
| `Listing.GetKeysWithPrefix` | lib/knox/client.js:229-269 | the loop with its accumulator and marker returns exactly the recursive listing `Walk` from no marker |
| `Listing.Walk` | lib/knox/client.js:233-268 | the self-calling `loop` as a recursive listing: a successful listing made at least one request, its first round did not fail, and it begins with that round's kept keys |
| `Listing.Flatten` | lib/knox/client.js:263 | joining the per-page key lists loses and invents no key: a key is in the result exactly when it is in one of the pages |
| `Listing.FlattenFront` | lib/knox/client.js:247-263 | the joined list starts with the first page pushed, followed by the join of the later pages |
| `Listing.WalkContinues` | lib/knox/client.js:247-260 | after a round that continues, the listing is that page's kept keys followed by the listing from the next marker |
| `Listing.LastRound` | lib/knox/client.js:249-264 | a round that does not continue ends the listing with its keys or its error |
| `Listing.CompleteRunExists` | lib/knox/client.js:233-268 | from every marker there is a chain of markers, each the last kept key of the page before, that runs until a page does not continue or the budget is spent |
| `Listing.CompleteRunTail` | lib/knox/client.js:254-260 | after a continuing round, the rest of a complete chain is a complete chain from the next marker |
| `Listing.RunOutcomeTail` | lib/knox/client.js:247-263 | the outcome of a chain is its first page's kept keys in front of the outcome of the rest |
| `Listing.WalkMatchesRun` | lib/knox/client.js:229-269 | the recursive listing equals the outcome of any complete chain of markers |
| `Listing.WalkIff` | lib/knox/client.js:229-269 | the listing is r exactly when some complete chain from the start marker has outcome r |
| `Listing.ListingIsConcatenation` | lib/knox/client.js:247-268 | a successful listing is the concatenation, in request order, of the kept keys of a chain that starts with no marker and ends at the first page that is not truncated |
| `Listing.InvalidPathFails` | lib/knox/client.js:160 | a path without a slash fails the listing with the invalid-path error |
| `Listing.TransportErrorFails` | lib/knox/client.js:234-237 | a request that fails in transport or in the XML parse fails the whole listing with that same error |
| `Listing.TruncatedEmptyFails` | lib/knox/client.js:249-252 | a truncated page with no key left after the echo is dropped fails the listing with the truncated-empty error |
| `Listing.NonAdvancingMarkerFails` | lib/knox/client.js:254-258 | a truncated page whose last key is the marker just sent fails the listing with the infinite-loop error |
| `Listing.EmptyNextMarkerFails` | lib/knox/client.js:254-257 | a truncated page whose last kept key is empty fails the listing with the infinite-loop error |
| `Listing.TruncatedPageContinues` | lib/knox/client.js:247-260 | a truncated page that passes both guards puts its kept keys in front of the listing continued from its last kept key |
| `Listing.LastPageFinishes` | lib/knox/client.js:243-264 | a page that is not truncated ends the listing with its keys, less a leading echo of the marker |
| `Listing.TwoPageListing` | lib/knox/client.js:239-263 | pages `["a","b","c"]` (truncated) and, for marker `"c"`, `["c","d"]` (not truncated) list as `["a","b","c","d"]`, with the echoed `"c"` dropped once |

## Left out

- Request signing: `auth.authorization`, `auth.canonicalizeHeaders`, `auth.canonicalizeResource` and `auth.signQuery` (lines 84-93, 595-599). `lib/knox/auth.js` is not part of this model.
- `buildRequestOptions` beyond its path split (lines 62-100). It reads the wall clock, calls `encodeURI` and `path.join`, and merges headers.
- `request`, `put`, `putFile`, `putStream`, `get`, `getFile`, `head`, `headFile`, `del` and `deleteFile`. These are HTTP plumbing over the transport.
- `url`, `https` and `signedUrl` (lines 566-605). They depend on path joining, URL parsing, percent-encoding and floating-point time.
- The HTTP exchange, response buffering (lines 169-193) and the XML parse (line 195). They are the `fetch` parameter. `encodeURI` is not applied, so `fetch` receives the URI before encoding.
- `MakeBucketRequest`, `DeleteBucketRequest`: the request is described by its verb and its path before `encodeURI`. The response callbacks are not modelled.
- `NewClient`: `utils.merge(this, options)` (line 51) is not part of this model. The client keeps the options' key and secret as its credentials. Other option fields that the merge would copy onto the client are ignored, such as a `port` or an endpoint that is present but empty.
- `GetKeysWithPrefix`: the model makes at most `fuel` requests and then returns `Exhausted`. The source has no such bound and no such error. Termination against an arbitrary server is not claimed: the guards catch only a marker that repeats immediately.
- `GetKeysWithPrefix`: a path without a slash makes the source throw synchronously from the first `reqKeysWithPrefix` call. The model returns it as `Failure(InvalidPath)`.
- `ReqKeysWithPrefix`: the optional-argument shuffle that lets the callback take the marker's place (lines 155-158) is not modelled. The marker is always an explicit `Option`.
- `PageOf`: an entry without a `Key` is not modelled, nor is a `Contents` value that is present but falsy. Every entry carries a string key.
- Asynchrony: callbacks and the self-calling `loop` become a sequential `while` loop, which preserves request order.
