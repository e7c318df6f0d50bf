/**
 * The observable behaviour of the lazy image proxy as values: the line an
 * image prints, the proxy's two-state backing reference, and what any
 * sequence of calls on one proxy does to that state and to the output.
 * The classes in module Proxy are proved against these functions.
 */
module ProxySpec {

  /** What `RealImage.display` prints in front of the file name. */
  const DisplayPrefix: string := "Displaying "

  /** The one line `RealImage.display` prints: the prefix, then the file name verbatim. */
  function DisplayLine(filename: string): (line: string)
    ensures |line| == |DisplayPrefix| + |filename|
    ensures line[..|DisplayPrefix|] == DisplayPrefix
    ensures line[|DisplayPrefix|..] == filename
  {
    DisplayPrefix + filename
  }

  /** The proxy's optional `realImage`: absent, or present holding that image's file name. */
  datatype Backing = Absent | Present(filename: string)

  /** The abstract state of one `ProxyLazyImage`. */
  datatype ProxyState = ProxyState(filename: string, backing: Backing)

  /** A present backing image carries the proxy's own file name. */
  predicate Coherent(s: ProxyState)
  {
    s.backing.Present? ==> s.backing.filename == s.filename
  }

  /** The state `ProxyLazyImage(filename:)` starts in. */
  function Init(filename: string): (s: ProxyState)
    ensures s.filename == filename && s.backing == Absent
    ensures Coherent(s)
  {
    ProxyState(filename, Absent)
  }

  /**
   * `filenameIsValid`: no validation is done; a new real image is built from
   * the proxy's file name, replacing any earlier one, and the answer is true.
   */
  function Check(s: ProxyState): (r: (ProxyState, bool))
    ensures r.1
    ensures r.0.filename == s.filename && r.0.backing == Present(s.filename)
    ensures Coherent(r.0)
  {
    (s.(backing := Present(s.filename)), true)
  }

  /**
   * `display`: check, then on true print through the (now present) backing
   * image; on false show the placeholder, which prints nothing.
   */
  function Display(s: ProxyState): (r: (ProxyState, seq<string>))
    ensures r.1 == [DisplayLine(s.filename)]
    ensures r.0 == Check(s).0
  {
    var (t, valid) := Check(s);
    if valid then
      // the force-unwrap: the selector below is well defined only if Present
      (t, [DisplayLine(t.backing.filename)])
    else
      (t, [])
  }

  /** The public calls a client can make on a proxy. */
  datatype Call = FilenameIsValid | DisplayCall

  /** One call: the state after it and the lines it prints. */
  function Step(s: ProxyState, c: Call): (r: (ProxyState, seq<string>))
    ensures r.0 == Check(s).0 && Coherent(r.0)
    ensures r.1 == if c == DisplayCall then [DisplayLine(s.filename)] else []
  {
    match c
    case FilenameIsValid => (Check(s).0, [])
    case DisplayCall => Display(s)
  }

  /**
   * A sequence of calls on one proxy: the final state and everything printed,
   * in order. No call changes the proxy's file name.
   */
  function Run(s: ProxyState, calls: seq<Call>): (r: (ProxyState, seq<string>))
    ensures r.0.filename == s.filename
    decreases |calls|
  {
    if calls == [] then (s, [])
    else
      var (t, out) := Step(s, calls[0]);
      var (u, rest) := Run(t, calls[1..]);
      (u, out + rest)
  }

  /** The number of `display` calls in a call sequence. */
  function CountDisplays(calls: seq<Call>): nat
    decreases |calls|
  {
    if calls == [] then 0
    else (if calls[0] == DisplayCall then 1 else 0) + CountDisplays(calls[1..])
  }

  /** `n` copies of `line`: what `n` calls of `RealImage.display` print. */
  function Repeat(line: string, n: nat): seq<string>
    decreases n
  {
    if n == 0 then [] else [line] + Repeat(line, n - 1)
  }

  /**
   * The result of `filenameIsValid` does not depend on the state before: two
   * states differing only in their backing give the same result, and checking
   * twice leaves the same abstract state as checking once.
   */
  lemma CheckResult(s: ProxyState, s': ProxyState)
    requires s.filename == s'.filename
    ensures Check(s) == Check(s')
    ensures Check(Check(s).0) == Check(s)
  {
  }

  /**
   * The backing reference after a sequence of calls: unchanged by no call,
   * and present with the proxy's name after any call, whatever came before.
   * In particular it is never reset to absent.
   */
  lemma {:induction false} RunBacking(s: ProxyState, calls: seq<Call>)
    ensures Run(s, calls).0.backing == if calls == [] then s.backing else Present(s.filename)
    decreases |calls|
  {
    if calls != [] {
      var t := Step(s, calls[0]).0;
      assert t.filename == s.filename;
      RunBacking(t, calls[1..]);
    }
  }

  /** Once present, the backing image stays present through any further calls. */
  lemma NeverReset(s: ProxyState, calls: seq<Call>)
    requires s.backing.Present?
    ensures Run(s, calls).0.backing.Present?
  {
    RunBacking(s, calls);
  }

  /** Coherence holds after any sequence of calls that starts from a coherent state. */
  lemma RunKeepsCoherent(s: ProxyState, calls: seq<Call>)
    requires Coherent(s)
    ensures Coherent(Run(s, calls).0)
  {
    RunBacking(s, calls);
  }

  /**
   * Delegation over time: any sequence of calls on a proxy prints exactly what
   * as many `display` calls on a real image of the same name print.
   */
  lemma {:induction false} RunOutput(s: ProxyState, calls: seq<Call>)
    ensures Run(s, calls).1 == Repeat(DisplayLine(s.filename), CountDisplays(calls))
    decreases |calls|
  {
    if calls != [] {
      var t := Step(s, calls[0]).0;
      assert t.filename == s.filename;
      RunOutput(t, calls[1..]);
    }
  }

  /** A fresh proxy followed by one `display` prints exactly one line, `"Displaying " + filename`. */
  lemma FreshDisplay(filename: string)
    ensures Run(Init(filename), [DisplayCall]).1 == [DisplayPrefix + filename]
    ensures Run(Init(filename), [DisplayCall]).0 == ProxyState(filename, Present(filename))
  {
  }
}
