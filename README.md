# Lazy image proxy (Proxy design pattern)

A model of the Swift playground `Structural/Proxy.playground/Contents.swift`
of the DesignPatterns repository. It has an `Image` protocol with one
operation, `display`; a `RealImage` that prints `"Displaying <filename>"`;
and a `ProxyLazyImage` that holds the same file name and an optional
`realImage`. On every `display` the proxy calls `filenameIsValid`. That call
does no validation: it builds a new `RealImage` from the proxy's name,
stores it, and answers `true`. The proxy then force-unwraps the stored image
and delegates to it. The script at the end builds a proxy for
`"app2x.png"` and displays it once.

The project has three modules:

- `ProxySpec` (`proxy_spec.dfy`) holds the behaviour as values. `DisplayLine` is the printed line. `ProxyState` pairs the proxy's name with its `Backing`, which is `Absent` or `Present(name)`: this is the two-state machine over `realImage`. `Check` and `Display` are the two proxy operations, and `Run` applies any sequence of calls. The lemmas state what the Proxy pattern promises about these: the backing is never reset, and the proxy prints exactly what its real image prints.
- `Proxy` (`proxy.dfy`) holds the classes. `Console`'s `lines` stand for standard output, and each `print` appends one line. `RealImage` and `ProxyLazyImage` have the source's fields. Their methods have `modifies` and `fresh` contracts, and each proxy method is tied to `ProxySpec` through the ghost function `ProxyLazyImage.State()`. `Image` is the protocol, given as a datatype over the two conforming classes.
- `Client` (`client.dfy`) holds the playground script and scenarios that show the pattern's promises: a proxy and a real image of the same name print the same output, and each check builds a new real image. Each runs on its own `Console`, so its whole output can be stated.

The quirk in `filenameIsValid` is kept as written. Every call allocates a
fresh `RealImage`, so the proxy is not construct-once lazy.
`ProxyLazyImage.FilenameIsValid` and `Client.RevalidateReplaces` state this.
The placeholder `else` branch of `display` holds `assert false`, which
proves that it is never reached. The force-unwrap is safe for a separate
reason: calling `realImage.Display` needs a non-null receiver, and
`FilenameIsValid` promises `realImage != null`.

## Model

| member | source | states |
|---|---|---|
| `ProxySpec.DisplayLine` | Structural/Proxy.playground/Contents.swift:25 | the printed line is `"Displaying "` followed by the file name verbatim, with length the sum of the two |
| `ProxySpec.Init` | Structural/Proxy.playground/Contents.swift:32-34 | a new proxy keeps its argument as its name, has no backing image, and satisfies the coherence invariant |
| `ProxySpec.Check` | Structural/Proxy.playground/Contents.swift:35-39 | `filenameIsValid` always answers true, keeps the proxy's name, and leaves a backing image of that name |
| `ProxySpec.CheckResult` | Structural/Proxy.playground/Contents.swift:35-39 | the result of `filenameIsValid` does not depend on the prior backing, and checking twice leaves the same abstract state as checking once |
| `ProxySpec.Display` | Structural/Proxy.playground/Contents.swift:40-46 | proxy `display` prints exactly the one line the real image of the proxy's name prints, through the backing image the check just stored, and leaves the state the check leaves |
| `ProxySpec.Step` | Structural/Proxy.playground/Contents.swift:35-46 | any one public call leaves the state a check leaves, which is coherent, and prints the real image's line for `display` and nothing for `filenameIsValid` |
| `ProxySpec.Run` | Structural/Proxy.playground/Contents.swift:30-46 | any sequence of calls on one proxy, with everything it prints in order; no call changes the proxy's file name |
| `ProxySpec.RunBacking` | Structural/Proxy.playground/Contents.swift:30-46 | after a sequence of calls the backing is unchanged if the sequence is empty, and is present with the proxy's name otherwise, whatever it was before |
| `ProxySpec.NeverReset` | Structural/Proxy.playground/Contents.swift:30-46 | once the backing image is present, no sequence of calls makes it absent again |
| `ProxySpec.RunKeepsCoherent` | Structural/Proxy.playground/Contents.swift:30-46 | the coherence invariant holds after any sequence of calls that starts from a coherent state |
| `ProxySpec.RunOutput` | Structural/Proxy.playground/Contents.swift:24-46 | any sequence of calls on a proxy prints exactly as many copies of the real image's line as it has `display` calls, and nothing else |
| `ProxySpec.FreshDisplay` | Structural/Proxy.playground/Contents.swift:32-46 | a new proxy displayed once prints exactly `"Displaying " + filename` and ends with a backing image of that name |
| `Proxy.Console.Print` | Structural/Proxy.playground/Contents.swift:25 | `print` appends exactly its line to the output |
| `Proxy.RealImage.constructor` | Structural/Proxy.playground/Contents.swift:20-23 | the file name is stored verbatim |
| `Proxy.RealImage.Display` | Structural/Proxy.playground/Contents.swift:24-26 | appends exactly one line, `"Displaying " + filename`, and changes nothing about the image |
| `Proxy.ProxyLazyImage.constructor` | Structural/Proxy.playground/Contents.swift:29-34 | the new proxy has the given name, no real image, and the abstract state `Init(filename)` |
| `Proxy.ProxyLazyImage.FilenameIsValid` | Structural/Proxy.playground/Contents.swift:35-39 | answers true; afterwards `realImage` is a newly allocated image holding the proxy's name; the name is unchanged; the new abstract state is `Check` of the old one |
| `Proxy.ProxyLazyImage.Display` | Structural/Proxy.playground/Contents.swift:40-46 | appends exactly `"Displaying " + filename`; `realImage` is non-nil at the force-unwrap and the placeholder branch is unreachable; it leaves a new real image of the same name, the name unchanged, and state and output as `ProxySpec.Display` gives them |
| `Proxy.DisplayImage` | Structural/Proxy.playground/Contents.swift:15-17 | `display` through the protocol prints `"Displaying "` followed by the image's name for either conforming class, and the name is unchanged; a real image is left unchanged, and a proxy is left with a new non-null real image of its name and the abstract state `ProxySpec.Display` gives |
| `Client.Script` | Structural/Proxy.playground/Contents.swift:49-50 | the script's whole output is the single line `"Displaying app2x.png"` |
| `Client.SameOutput` | Structural/Proxy.playground/Contents.swift:19-46 | for any name, including the empty one, a new proxy displayed once and a new real image displayed once print the same output, `["Displaying " + filename]` |
| `Client.SameOutputThroughProtocol` | Structural/Proxy.playground/Contents.swift:15-17 | the same equality holds when both are displayed through the `Image` protocol |
| `Client.RevalidateReplaces` | Structural/Proxy.playground/Contents.swift:32-39 | a new proxy has no real image; two checks leave two distinct real images, each holding the proxy's name |

## Left out

- Standard output: `print` is modelled as appending one line to `Console.lines`. The trailing newline and the real stream are not modelled.
- The `Image` protocol is a closed datatype over its two conforming classes with one dispatch method. Conformance by other types and Swift's dynamic dispatch are not modelled.
- Filename validation: the source has only a `// do some check` stub, so the model does none.
- The "show placeholder" branch has no behaviour in the source. The model proves it unreachable and gives it no effect.
- Deallocation of replaced `RealImage` instances under reference counting is not modelled. Dafny's heap never frees objects.
- `private` access is not modelled. `Client.RevalidateReplaces` reads `realImage` directly, as a test would through a hook.
- The doc comment at the top of the file carries no behaviour.
