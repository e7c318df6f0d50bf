/**
 * The Proxy pattern as objects: a real image that prints its name, and a
 * proxy that (re)builds a real image on every use and delegates to it.
 * Standard output is a `Console` object whose lines the images append to.
 */
module Proxy {
  import opened ProxySpec

  /** Standard output, as the lines printed so far. */
  class Console {
    var lines: seq<string>

    constructor ()
      ensures lines == []
    {
      lines := [];
    }

    /** `print(line)`. */
    method Print(line: string)
      modifies this
      ensures lines == old(lines) + [line]
    {
      lines := lines + [line];
    }
  }

  /** The expensive real subject. */
  class RealImage {
    var filename: string

    constructor (filename: string)
      ensures this.filename == filename
    {
      this.filename := filename;
    }

    /** Prints one line naming the file and changes nothing about the image. */
    method Display(console: Console)
      modifies console
      ensures console.lines == old(console.lines) + [DisplayPrefix + filename]
      ensures unchanged(this)
    {
      console.Print(DisplayLine(filename));
    }
  }

  /** The stand-in: the same name, and an optional real image that starts absent. */
  class ProxyLazyImage {
    var realImage: RealImage?
    var filename: string

    /** The abstract state: the name, and the name held by the real image if there is one. */
    ghost function State(): ProxyState
      reads this, realImage
    {
      ProxyState(filename, if realImage == null then Absent else Present(realImage.filename))
    }

    /** The object invariant: a present real image carries the proxy's own name. */
    ghost predicate Valid()
      reads this, realImage
    {
      Coherent(State())
    }

    constructor (filename: string)
      ensures this.filename == filename && realImage == null
      ensures State() == Init(filename) && Valid()
    {
      this.filename := filename;
      realImage := null;
    }

    /**
     * Does no validation: always builds a new real image from the proxy's
     * name, replacing any earlier one, and answers true.
     */
    method FilenameIsValid() returns (valid: bool)
      modifies this`realImage
      ensures valid
      ensures realImage != null && fresh(realImage) && realImage.filename == filename
      ensures filename == old(filename)
      ensures (State(), valid) == Check(old(State()))
      ensures Valid()
    {
      realImage := new RealImage(filename);
      return true;
    }

    /**
     * Checks, then delegates to the real image. The force-unwrap is safe
     * because `FilenameIsValid` leaves `realImage` non-null, and the
     * placeholder branch is never taken because it always answers true.
     */
    method Display(console: Console)
      modifies this`realImage, console
      ensures console.lines == old(console.lines) + [DisplayPrefix + filename]
      ensures realImage != null && fresh(realImage) && realImage.filename == filename
      ensures filename == old(filename)
      ensures State() == ProxySpec.Display(old(State())).0
      ensures console.lines == old(console.lines) + ProxySpec.Display(old(State())).1
      ensures Valid()
    {
      var valid := FilenameIsValid();
      if valid {
        realImage.Display(console);
      } else {
        // show placeholder
        assert false;
      }
    }
  }

  /** The `Image` protocol: anything that can be displayed, namely the two conforming classes. */
  datatype Image = Real(realImage: RealImage) | Lazy(proxy: ProxyLazyImage)

  /** The name an image displays under. */
  function NameOf(image: Image): string
    reads if image.Real? then image.realImage else image.proxy
  {
    match image
    case Real(r) => r.filename
    case Lazy(p) => p.filename
  }

  /**
   * `image.display()` through the protocol: both conformers print the same
   * line for the same name; a real image is left as it was, and a proxy
   * changes state exactly as its own `display` makes it.
   */
  method DisplayImage(image: Image, console: Console)
    modifies console, if image.Lazy? then {image.proxy} else {}
    ensures console.lines == old(console.lines) + [DisplayPrefix + old(NameOf(image))]
    ensures NameOf(image) == old(NameOf(image))
    ensures image.Real? ==> unchanged(image.realImage)
    ensures image.Lazy? ==>
      && image.proxy.realImage != null && fresh(image.proxy.realImage)
      && image.proxy.realImage.filename == image.proxy.filename
      && image.proxy.State() == ProxySpec.Display(old(image.proxy.State())).0
  {
    match image
    case Real(r) => r.Display(console);
    case Lazy(p) => p.Display(console);
  }
}
