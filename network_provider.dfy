/** Where prices come from: the bundled files or a remote base URL. */
module NetworkProviders {

  datatype NetworkProviderType = Local | Remote(baseURL: string)

  const DefaultRemote: NetworkProviderType := Remote("https://api.crypto.com")

  function Description(p: NetworkProviderType): (s: string)
    ensures p.Local? ==> s == "Local Data Source"
    ensures p.Remote? ==> s == "Remote Data Source (" + p.baseURL + ")"
    ensures p.Remote? ==> |s| == |p.baseURL| + 21
  {
    match p
    case Local => "Local Data Source"
    case Remote(url) => "Remote Data Source (" + url + ")"
  }

  /** A remote description never reads as the local one. */
  lemma RemoteIsNotLocal(url: string)
    ensures Description(Remote(url)) != Description(Local)
  {
  }

  /** The base URL can be read back from a remote description, so distinct URLs are told apart. */
  lemma RemoteDescriptionInjective(u: string, v: string)
    requires Description(Remote(u)) == Description(Remote(v))
    ensures u == v
  {
    var d := Description(Remote(u));
    assert |u| == |v|;
    assert d[20..20 + |u|] == u;
    assert Description(Remote(v))[20..20 + |v|] == v;
  }

  lemma DefaultRemoteDescription()
    ensures DefaultRemote.Remote? && DefaultRemote.baseURL == "https://api.crypto.com"
    ensures Description(DefaultRemote) == "Remote Data Source (https://api.crypto.com)"
  {
  }
}
