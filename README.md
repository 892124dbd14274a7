# tempfile template service, modelled in Dafny

This project models the logic in the web front end's template service
(`internal/services/template.go`) of the tempfile ephemeral file store. It covers
two pieces:

- `formatBytes` turns a byte count into a human-readable size. A count below 1024
  prints as `"<n> B"`. A larger count is divided by the largest power of 1024 that
  does not exceed it and gets one of the letters K, M, G, T, P or E. The model keeps
  the loop that picks the divisor (`ByteFormat.FormatBytes`). Its divisor variable has
  the int64 type, so the verifier checks that `div * 1024` never overflows and that
  the letter index stays inside `"KMGTPE"`. The result is compared with two
  independent definitions: the exponent of the largest power of 1024 (`Log1024`) and
  the table of value bands (`BandLetter`). The exact `%d` text of the small case is
  modelled in `Decimal`, along with a parser that reads it back.
- `TemplateService` is a class. Its fields are the configuration's `debug` flag,
  `useFileSystem` and the current template set. `Initialize` picks filesystem mode or
  embedded mode. Filesystem mode requires three things: debug or the
  `USE_FILESYSTEM_ASSETS=true` environment flag, a templates directory that is not
  reported missing, and a successful parse of that directory. In any other case it
  falls back to the embedded templates, and only a failed parse of those is an error.
  `Render` reloads from disk only in filesystem mode with debug on.
  `ReloadTemplatesIfNeeded` replaces the templates only when parsing succeeds.
  `RenderSuccessPage` redirects to `/` when the `file` query parameter is empty.
  `GetMode` names the mode.

The environment, the directory check and the template parsers are inputs to the
methods: a map of environment variables, a boolean for "the directory does not
exist", and the outcome of each parse (a parsed set of page names, or a failure
reason).

## Model

| member | source | states |
|---|---|---|
| `ByteFormat.FormatBytes` | internal/services/template.go:176-187 | Below 1024, including negative counts, the result is exactly the `%d` text followed by `" B"`. From 1024 up, the divisor is the largest power of 1024 not above `bytes` (`div <= bytes < div*1024`, `div == 1024^Log1024(bytes)`), the quotient `bytes / div` lies in [1, 1024), and the letter is the one the value band calls for. The loop never overflows int64 and never indexes past `"KMGTPE"`. |
| `ByteFormat.Log1024Bounds` | internal/services/template.go:181-185 | For every positive count, 1024^Log1024(x) <= x < 1024^(Log1024(x)+1): the reference exponent brackets the value the way the loop's exit condition does. |
| `ByteFormat.Log1024Unique` | internal/services/template.go:181-185 | Any exponent k with 1024^k <= x < 1024^(k+1) equals Log1024(x), so the unit the loop stops at is the only power of 1024 that brackets the count. |
| `ByteFormat.Int64ExponentBound` | internal/services/template.go:182-186 | Every positive int64 has Log1024 at most 6, so the letter index `exp = Log1024 - 1` is in 0..5 and `"KMGTPE"[exp]` is in range for every input. |
| `ByteFormat.BandLetterIsLargestPower` | internal/services/template.go:186 | For every int64 of at least 1024, the band table (K for [2^10, 2^20), M, G, T and P for the next bands, E from 2^60) gives the letter at index Log1024 - 1 of `"KMGTPE"`. |
| `Decimal.NatDigits` | internal/services/template.go:179 | The decimal digits of a natural number: at least one digit, all of them `0`-`9`, and no leading zero unless the number is 0. |
| `Decimal.FormatIntRoundTrip` | internal/services/template.go:179 | The `%d` text of every integer, including negative ones, reads back as that integer, so the text printed below 1024 identifies the count. |
| `Services.TemplateService.constructor` | internal/services/template.go:26-31 | A new service starts in embedded mode with no templates, keeping the configuration's debug flag. |
| `Services.TemplateService.Initialize` | internal/services/template.go:34-70 | Afterwards `useFileSystem` holds exactly when (debug or the env flag is "true"), the directory is not reported missing, and the directory parse succeeded. Initialize returns an error exactly when it falls back to embedded templates and their parse fails. On that error the templates are left as they were, and the error text carries the parse failure. On success the templates are the directory's set in filesystem mode and the embedded set otherwise. |
| `Services.TemplateService.ReloadTemplatesIfNeeded` | internal/services/template.go:95-108 | Outside filesystem mode it does nothing. In filesystem mode it installs the newly parsed set on success, and on failure it returns the parse error and keeps the old set. It never changes the mode. |
| `Services.TemplateService.Render` | internal/services/template.go:73-92 | The templates change only when `useFileSystem` and `debug` both hold and the reload parse succeeds. With the env flag set but debug off, a render never reloads. The response is the named page if the current set defines it, and a 500 otherwise. |
| `Services.TemplateService.RenderSuccessPage` | internal/services/template.go:132-159 | When the `file` query parameter is missing or empty, it redirects to `/` and leaves the templates untouched. Otherwise it renders `success.html` exactly as `Render` does. |
| `Services.TemplateService.GetMode` | internal/services/template.go:111-116 | Returns "filesystem" exactly when `useFileSystem` holds, and "embedded" otherwise. |

## Left out

- `ByteFormat.FormatBytes`: the `%.1f` text of `float64(bytes)/float64(div)` is not modelled. That is floating-point formatting; the model gives the divisor, the integer quotient and the letter instead.
- Template parsing and execution (`template.ParseGlob`, `template.ParseFS`, `ExecuteTemplate`, `embed.FS`) and `os.Stat` are external library and filesystem calls. Parsing becomes a `ParseResult` input, and execution is reduced to "the page name is defined in the set". Execution errors caused by the page data are not modelled.
- The `embed.FS` constructor argument is represented only by the outcome of parsing it, which is passed to `Initialize`.
- `Services.TemplateService.Render` requires a template set to be present. A service whose `Initialize` failed is never used, because the server exits at cmd/server/main.go:41-43, and in Go the nil template set would panic.
- Fiber request and response handling (`c.Set`, `c.Status`, `c.SendString`, `c.Redirect`, `c.Query`) and logging are HTTP I/O. Query parameters are a map, and responses are the `Response` datatype.
- `RenderUploadPage` and `RenderErrorPage` only assemble page data and call `Render`. The page data is not modelled, so they would add nothing beyond `Render`.
- cmd/server/main.go (configuration, middleware, routes, the cleanup goroutine, the listener) is process wiring. The upload, retrieval and cleanup services that implement the file lifecycle are not part of this model; their source is not among the files modelled here.
