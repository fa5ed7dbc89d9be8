/** Construction of a client: the credentials are mandatory, the endpoint
    defaults to the public service host and the port is plain HTTP. */
module ClientConfig {
  import opened Common

  /** The options object handed to the constructor; a field the caller did
      not set is None. */
  datatype Options = Options(key: Option<string>, secret: Option<string>, endpoint: Option<string>)

  /** The configuration a constructed client holds for its whole lifetime. */
  datatype Client = Client(endpoint: string, port: nat, key: string, secret: string)

  const DefaultEndpoint: string := "s3.amazonaws.com"
  const DefaultPort: nat := 80

  /** The constructor: a missing or empty key is rejected first, then a
      missing or empty secret; a truthy endpoint replaces the default. */
  function NewClient(options: Options): (r: Result<Client, Error>)
    ensures r == Failure(MissingKey) <==> !Truthy(options.key)
    ensures r == Failure(MissingSecret) <==> Truthy(options.key) && !Truthy(options.secret)
    ensures r.Success? <==> Truthy(options.key) && Truthy(options.secret)
    ensures r.Success? ==> r.value.key == options.key.value && r.value.secret == options.secret.value
    ensures r.Success? ==> r.value.port == 80
    ensures r.Success? ==> r.value.endpoint == (if Truthy(options.endpoint) then options.endpoint.value else "s3.amazonaws.com")
    ensures r.Success? ==> r.value.endpoint != "" && r.value.key != "" && r.value.secret != ""
  {
    var endpoint := if Truthy(options.endpoint) then options.endpoint.value else DefaultEndpoint;
    if !Truthy(options.key) then Failure(MissingKey)
    else if !Truthy(options.secret) then Failure(MissingSecret)
    else Success(Client(endpoint, DefaultPort, options.key.value, options.secret.value))
  }
}
