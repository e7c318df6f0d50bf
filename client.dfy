/**
 * Clients of the proxy: the two-line script at the end of the playground,
 * and the scenarios the pattern promises, each on a console of its own so
 * that the whole output can be stated.
 */
module Client {
  import opened ProxySpec
  import opened Proxy

  /** The playground script: a proxy for "app2x.png", displayed once. */
  method Script() returns (output: seq<string>)
    ensures output == ["Displaying app2x.png"]
  {
    var console := new Console();
    var img := new ProxyLazyImage("app2x.png");
    img.Display(console);
    output := console.lines;
    assert DisplayPrefix + "app2x.png" == "Displaying app2x.png";
  }

  /** A proxy and a real image of the same name print the same output, even for the empty name. */
  method SameOutput(filename: string) returns (viaProxy: seq<string>, direct: seq<string>)
    ensures viaProxy == direct
    ensures direct == ["Displaying " + filename]
  {
    var proxyConsole := new Console();
    var proxy := new ProxyLazyImage(filename);
    proxy.Display(proxyConsole);
    viaProxy := proxyConsole.lines;

    var realConsole := new Console();
    var image := new RealImage(filename);
    image.Display(realConsole);
    direct := realConsole.lines;
  }

  /** The same, when both are used through the `Image` protocol. */
  method SameOutputThroughProtocol(filename: string) returns (viaProxy: seq<string>, direct: seq<string>)
    ensures viaProxy == direct
    ensures direct == ["Displaying " + filename]
  {
    var proxyConsole := new Console();
    var proxy := new ProxyLazyImage(filename);
    DisplayImage(Lazy(proxy), proxyConsole);
    viaProxy := proxyConsole.lines;

    var realConsole := new Console();
    var image := new RealImage(filename);
    DisplayImage(Real(image), realConsole);
    direct := realConsole.lines;
  }

  /** The fresh proxy has no real image; each check builds a new one of the same name. */
  method RevalidateReplaces(filename: string) returns (before: bool, first: RealImage, second: RealImage)
    ensures before
    ensures first != second
    ensures first.filename == filename && second.filename == filename
  {
    var proxy := new ProxyLazyImage(filename);
    before := proxy.realImage == null;
    var ok := proxy.FilenameIsValid();
    first := proxy.realImage;
    ok := proxy.FilenameIsValid();
    second := proxy.realImage;
  }
}
