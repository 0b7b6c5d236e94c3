/**
 * URLs of the token images.  The page origin (`window.location.origin`) and
 * the two bundled asset paths are inputs.
 */
module TokenImage {
  import opened Wrappers

  /** `${host}/${tokenPath}`: the host, one slash, then the path. */
  function ToUrl(host: string, tokenPath: string): (url: string)
    ensures |url| == |host| + 1 + |tokenPath|
    ensures url[..|host|] == host && url[|host|] == '/'
    ensures url[|host| + 1..] == tokenPath
  {
    host + "/" + tokenPath
  }

  /** The message of the error thrown for a name without an image. */
  function UnsupportedMessage(name: string): string
  {
    "Token url doesn't support: " + name
  }

  /**
   * The image URL of a token by its exact, case-sensitive name: "shrk" and
   * "sshrk" have one, every other name is an error.
   */
  function GetTokenUrl(name: string, host: string, shrkImg: string, sShrkImg: string): (r: Result<string, string>)
    ensures r.Success? <==> name == "shrk" || name == "sshrk"
    ensures name == "shrk" ==> r == Success(ToUrl(host, shrkImg))
    ensures name == "sshrk" ==> r == Success(ToUrl(host, sShrkImg))
    ensures r.Failure? ==> r.error == UnsupportedMessage(name)
  {
    if name == "shrk" then Success(ToUrl(host, shrkImg))
    else if name == "sshrk" then Success(ToUrl(host, sShrkImg))
    else Failure(UnsupportedMessage(name))
  }

  /** Within one host, the URL determines the asset path. */
  lemma ToUrlInjective(host: string, p: string, q: string)
    requires ToUrl(host, p) == ToUrl(host, q)
    ensures p == q
  {
    assert p == ToUrl(host, p)[|host| + 1..];
    assert q == ToUrl(host, q)[|host| + 1..];
  }

  /** Every URL handed out starts with the host followed by a slash. */
  lemma GetTokenUrlPrefix(name: string, host: string, shrkImg: string, sShrkImg: string)
    requires GetTokenUrl(name, host, shrkImg, sShrkImg).Success?
    ensures host + "/" <= GetTokenUrl(name, host, shrkImg, sShrkImg).value
  {
    var url := GetTokenUrl(name, host, shrkImg, sShrkImg).value;
    assert url[..|host| + 1] == host + "/";
  }

  /** The match is case-sensitive: the ticker spelled in capitals is refused. */
  lemma UpperCaseNameRejected(host: string, shrkImg: string, sShrkImg: string)
    ensures GetTokenUrl("SHRK", host, shrkImg, sShrkImg) == Failure("Token url doesn't support: SHRK")
  {
    assert "SHRK"[0] != "shrk"[0] && "SHRK"[0] != "sshrk"[0];
    assert UnsupportedMessage("SHRK") == "Token url doesn't support: SHRK";
  }
}
