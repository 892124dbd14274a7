/**
 * The template service's loading modes. Templates come either from the
 * templates directory on disk ("filesystem" mode, reloaded on each render in
 * debug mode) or from the files embedded in the binary ("embedded" mode).
 * The environment, the directory check and the two parsers are inputs:
 * `env` holds the process environment, `dirNotExist` is whether the
 * directory check reported that the directory does not exist, and `glob`
 * and `embedded` are what parsing the directory and the embedded files yield.
 */
module Services {
  import opened Wrappers

  /** A parsed template set, abstracted to the names of the pages it defines. */
  datatype TemplateSet = TemplateSet(pages: set<string>)

  /** The outcome of parsing a set of template files. */
  datatype ParseResult = Parsed(templates: TemplateSet) | ParseFailed(reason: string)

  /** What a render sends back to the client. */
  datatype Response =
    | Page(name: string)
    | InternalServerError
    | Redirect(location: string)

  const UseFileSystemAssets: string := "USE_FILESYSTEM_ASSETS"
  const EmbeddedParseError: string := "failed to parse embedded templates: "
  const SuccessPage: string := "success.html"

  /** A key's value, or "" when it is absent (as for environment variables and query parameters). */
  function ValueOrEmpty(m: map<string, string>, key: string): (v: string)
    ensures key in m ==> v == m[key]
    ensures key !in m ==> v == ""
  {
    if key in m then m[key] else ""
  }

  class TemplateService {
    /** The configuration's Debug flag. */
    const debug: bool
    var useFileSystem: bool
    var templates: Option<TemplateSet>

    /** Filesystem mode is only ever entered with a template set in hand. */
    ghost predicate Valid()
      reads this
    {
      useFileSystem ==> templates.Some?
    }

    constructor (debug: bool)
      ensures Valid()
      ensures this.debug == debug && !useFileSystem && templates == None
    {
      this.debug := debug;
      useFileSystem := false;
      templates := None;
    }

    /**
     * Filesystem mode is chosen only when it is asked for (debug or the
     * environment flag), the directory is not reported missing and parsing
     * it succeeds; otherwise the embedded templates are parsed, and only
     * their failure is an error, which leaves the templates as they were.
     */
    method Initialize(env: map<string, string>, dirNotExist: bool, glob: ParseResult, embedded: ParseResult)
      returns (err: Option<string>)
      modifies this
      ensures Valid()
      ensures useFileSystem ==
        ((debug || ValueOrEmpty(env, UseFileSystemAssets) == "true") && !dirNotExist && glob.Parsed?)
      ensures err.Some? <==> !useFileSystem && embedded.ParseFailed?
      ensures useFileSystem ==> err.None? && templates == Some(glob.templates)
      ensures !useFileSystem && err.None? ==> templates == Some(embedded.templates)
      ensures err.Some? ==> templates == old(templates) && err.value == EmbeddedParseError + embedded.reason
    {
      useFileSystem := debug || ValueOrEmpty(env, UseFileSystemAssets) == "true";
      var tmpl: Option<TemplateSet> := None;
      if useFileSystem {
        if dirNotExist {
          useFileSystem := false;
        } else {
          match glob
          case ParseFailed(_) =>
            useFileSystem := false;
          case Parsed(t) =>
            tmpl := Some(t);
        }
      }
      if !useFileSystem || tmpl == None {
        match embedded
        case ParseFailed(reason) =>
          return Some(EmbeddedParseError + reason);
        case Parsed(t) =>
          tmpl := Some(t);
      }
      templates := tmpl;
      return None;
    }

    /**
     * In filesystem mode, re-parses the directory and keeps the new set
     * only if parsing succeeded; never changes the mode.
     */
    method ReloadTemplatesIfNeeded(glob: ParseResult) returns (err: Option<string>)
      requires Valid()
      modifies this`templates
      ensures Valid()
      ensures err.Some? <==> useFileSystem && glob.ParseFailed?
      ensures err.Some? ==> err.value == glob.reason
      ensures templates == if useFileSystem && glob.Parsed? then Some(glob.templates) else old(templates)
    {
      if !useFileSystem {
        return None;
      }
      match glob
      case ParseFailed(reason) =>
        return Some(reason);
      case Parsed(t) =>
        templates := Some(t);
        return None;
    }

    /**
     * Reloads from disk only when in filesystem mode AND debug; a reload
     * error is only logged. Then the named page is executed, and an unknown
     * page gives a 500.
     */
    method Render(name: string, glob: ParseResult) returns (resp: Response)
      requires Valid() && templates.Some?
      modifies this`templates
      ensures Valid() && templates.Some?
      ensures templates ==
        if useFileSystem && debug && glob.Parsed? then Some(glob.templates) else old(templates)
      ensures resp == if name in templates.value.pages then Page(name) else InternalServerError
    {
      if useFileSystem && debug {
        var _ := ReloadTemplatesIfNeeded(glob);
      }
      if name in templates.value.pages {
        resp := Page(name);
      } else {
        resp := InternalServerError;
      }
    }

    /** Without a `file` query parameter, redirects home and renders nothing. */
    method RenderSuccessPage(query: map<string, string>, glob: ParseResult) returns (resp: Response)
      requires Valid()
      requires ValueOrEmpty(query, "file") != "" ==> templates.Some?
      modifies this`templates
      ensures Valid()
      ensures ValueOrEmpty(query, "file") == "" ==> resp == Redirect("/") && templates == old(templates)
      ensures ValueOrEmpty(query, "file") != "" ==>
        templates.Some? &&
        templates == (if useFileSystem && debug && glob.Parsed? then Some(glob.templates) else old(templates)) &&
        resp == (if SuccessPage in templates.value.pages then Page(SuccessPage) else InternalServerError)
    {
      var filename := ValueOrEmpty(query, "file");
      if filename == "" {
        return Redirect("/");
      }
      resp := Render(SuccessPage, glob);
    }

    /** The loading mode's name. */
    function GetMode(): (mode: string)
      reads this
      ensures mode == "filesystem" <==> useFileSystem
      ensures mode == "filesystem" || mode == "embedded"
    {
      if useFileSystem then "filesystem" else "embedded"
    }
  }

  /**
   * With the environment flag set but debug off, the service runs in
   * filesystem mode yet a render keeps the templates it loaded at start-up.
   */
  method FlagWithoutDebugDoesNotReload(loaded: TemplateSet, changed: TemplateSet)
  {
    var s := new TemplateService(false);
    var err := s.Initialize(map[UseFileSystemAssets := "true"], false, Parsed(loaded), ParseFailed("unused"));
    assert err == None && s.GetMode() == "filesystem";
    var _ := s.Render("upload.html", Parsed(changed));
    assert s.templates == Some(loaded);
  }
}
