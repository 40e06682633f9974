/** The `push` command of the gotify command-line client: how one invocation
    turns its positional arguments, standard input, flags and configuration
    into a message ready for delivery, or into the error it exits with. */
module Push {
  import opened Strings

  datatype Option<T> = None | Some(value: T)

  datatype Result<T, E> = Ok(value: T) | Err(error: E)

  /** The command's flags after parsing; `prioritySet` is whether the user
      gave `--priority` explicitly (so that an explicit 0 is told apart from
      the flag's default). */
  datatype Flags = Flags(
    priority: int,
    prioritySet: bool,
    title: string,
    token: string,
    url: string,
    quiet: bool,
    contentType: string,
    clickUrl: string,
    disableUnescape: bool)

  /** The configuration file's contents. */
  datatype Config = Config(token: string, url: string, defaultPriority: int)

  /** What reading the configuration gave: a record, or an error. */
  datatype ConfigLoad = Loaded(config: Config) | LoadFailed

  /** A value in the message's open `extras` mapping: a string or a nested
      object. */
  datatype Value = Str(s: string) | Obj(fields: map<string, Value>)

  /** The message payload sent to the server. */
  datatype Message = Message(text: string, title: string, priority: int, extras: map<string, Value>)

  /** Everything delivery needs: the payload, the bearer token, the server
      URL as a string, and whether success output is suppressed. */
  datatype Delivery = Delivery(msg: Message, token: string, url: string, quiet: bool)

  /** Each reason the command exits with status 1 before delivery. */
  datatype PushError =
    | MissingMessage
    | ConflictingSources
    | TokenNotConfigured
    | UrlNotConfigured
    | InvalidUrl(url: string)

  const DisplayKey: string := "client::display"
  const NotificationKey: string := "client::notification"

  /** The configuration record the command reads its fallbacks from: the
      loaded one, or the zero-valued record when loading failed. */
  function Effective(load: ConfigLoad): Config
  {
    match load
    case Loaded(c) => c
    case LoadFailed => Config("", "", 0)
  }

  /** The arguments handed to the exit helper for each error. */
  function ExitArgs(e: PushError): (r: seq<string>)
    ensures |r| == if e.InvalidUrl? then 2 else 1
    ensures e.InvalidUrl? ==> r[0] == "invalid url" && r[1] == e.url
  {
    match e
    case MissingMessage => ["a message must be set, either as argument or via stdin"]
    case ConflictingSources => ["a message is set via stdin and arguments, use only one of them"]
    case TokenNotConfigured => ["token is not configured, run 'gotify init'"]
    case UrlNotConfigured => ["url is not configured, run 'gotify init'"]
    case InvalidUrl(u) => ["invalid url", u]
  }

  /** Different errors print different exit messages, and an invalid-URL
      message names the offending URL. */
  lemma ExitArgsDistinct(e1: PushError, e2: PushError)
    ensures ExitArgs(e1) == ExitArgs(e2) ==> e1 == e2
    ensures e1.InvalidUrl? ==> ExitArgs(e1)[|ExitArgs(e1)| - 1] == e1.url
  {
  }

  /** Choosing the message source: the positional arguments joined by single
      spaces, or standard input, whichever is non-empty; neither or both is an
      error. */
  function ReadMessage(args: seq<string>, stdin: string): (r: Result<string, PushError>)
    ensures r == Err(MissingMessage) <==> Join(args, " ") == "" && stdin == ""
    ensures r == Err(ConflictingSources) <==> Join(args, " ") != "" && stdin != ""
    ensures r.Ok? <==> (Join(args, " ") == "") != (stdin == "")
    ensures r.Ok? ==> r.value != "" && r.value in {Join(args, " "), stdin}
  {
    var msgArgs := Join(args, " ");
    if msgArgs == "" && stdin == "" then Err(MissingMessage)
    else if msgArgs != "" && stdin != "" then Err(ConflictingSources)
    else if msgArgs == "" then Ok(stdin)
    else Ok(msgArgs)
  }

  /** Without arguments, or with one empty argument, the message comes from
      standard input alone, and is missing when that is empty too. */
  lemma NoArgumentsReadsStdin(args: seq<string>, stdin: string)
    requires args == [] || args == [""]
    ensures ReadMessage(args, stdin) == if stdin == "" then Err(MissingMessage) else Ok(stdin)
  {
  }

  /** The message is missing exactly when standard input is empty and there
      is no argument or one empty argument; two empty arguments already make
      a one-space message. */
  lemma MissingMessageIff(args: seq<string>, stdin: string)
    ensures ReadMessage(args, stdin) == Err(MissingMessage) <==>
            stdin == "" && (args == [] || args == [""])
  {
  }

  /** With standard input empty and arguments that contain no space, the
      message is the arguments, recoverable one by one by splitting on the
      space: they are joined with exactly one space and nothing else. */
  lemma ArgumentsBecomeMessage(args: seq<string>)
    requires |args| > 0 && args != [""]
    requires forall i :: 0 <= i < |args| ==> ' ' !in args[i]
    ensures ReadMessage(args, "").Ok?
    ensures Split(ReadMessage(args, "").value, ' ') == args
  {
    SplitJoin(args, ' ');
  }

  /** The extras a message carries for the given content type and click URL:
      the display entry exactly when the content type is non-empty, the
      notification entry exactly when the click URL is non-empty, each with
      its nested value, and no other key. */
  ghost predicate ExtrasFor(extras: map<string, Value>, contentType: string, clickUrl: string)
  {
    && extras.Keys <= {DisplayKey, NotificationKey}
    && (DisplayKey in extras <==> contentType != "")
    && (NotificationKey in extras <==> clickUrl != "")
    && (DisplayKey in extras ==>
          extras[DisplayKey] == Obj(map["contentType" := Str(contentType)]))
    && (NotificationKey in extras ==>
          extras[NotificationKey] == Obj(map["click" := Obj(map["url" := Str(clickUrl)])]))
  }

  /** Filling the message's extras map, starting from an empty map and
      inserting one entry per non-empty flag. */
  method BuildExtras(contentType: string, clickUrl: string) returns (extras: map<string, Value>)
    ensures ExtrasFor(extras, contentType, clickUrl)
  {
    extras := map[];

    if contentType != "" {
      extras := extras[DisplayKey := Obj(map["contentType" := Str(contentType)])];
    }

    if clickUrl != "" {
      extras := extras[NotificationKey := Obj(map["click" := Obj(map["url" := Str(clickUrl)])])];
    }
  }

  /** One run of the command up to the point of delivery.  `unescape` stands
      for the backslash evaluator and `urlParses` for the URL parser, neither
      of which is part of this model; `config` is what reading the
      configuration gave. Each early return is an exit with status 1. */
  method DoPush(
    args: seq<string>,
    stdin: string,
    flags: Flags,
    config: ConfigLoad,
    unescape: string -> string,
    urlParses: string -> bool)
    returns (r: Result<Delivery, PushError>)
    // Message-source errors come first, before any token or URL check.
    ensures ReadMessage(args, stdin).Err? ==> r == Err(ReadMessage(args, stdin).error)
    // Then a missing token, before a missing URL.
    ensures ReadMessage(args, stdin).Ok? && flags.token == "" && config.LoadFailed? ==>
              r == Err(TokenNotConfigured)
    ensures ReadMessage(args, stdin).Ok? && (flags.token != "" || config.Loaded?) &&
            flags.url == "" && config.LoadFailed? ==>
              r == Err(UrlNotConfigured)
    // Then the URL, flag first, configuration second, must parse.
    ensures ReadMessage(args, stdin).Ok? && (flags.token != "" || config.Loaded?) &&
            (flags.url != "" || config.Loaded?) ==>
              var u := if flags.url != "" then flags.url else Effective(config).url;
              (!urlParses(u) ==> r == Err(InvalidUrl(u)))
    // Success exactly when none of the above applies.
    ensures r.Ok? <==>
            ReadMessage(args, stdin).Ok? && (flags.token != "" || config.Loaded?) &&
            (flags.url != "" || config.Loaded?) &&
            urlParses(if flags.url != "" then flags.url else Effective(config).url)
    // The text is the chosen source, unescaped unless that is disabled.
    ensures r.Ok? ==>
              var source := ReadMessage(args, stdin).value;
              r.value.msg.text == if flags.disableUnescape then source else unescape(source)
    // A non-empty flag wins whatever the configuration says; an empty one
    // falls back to a loaded configuration.
    ensures r.Ok? && flags.token != "" ==> r.value.token == flags.token
    ensures r.Ok? && flags.token == "" ==> config.Loaded? && r.value.token == config.config.token
    ensures r.Ok? && flags.url != "" ==> r.value.url == flags.url
    ensures r.Ok? && flags.url == "" ==> config.Loaded? && r.value.url == config.config.url
    // An explicitly set priority wins, even 0; otherwise the configured default.
    ensures r.Ok? && flags.prioritySet ==> r.value.msg.priority == flags.priority
    ensures r.Ok? && !flags.prioritySet ==> r.value.msg.priority == Effective(config).defaultPriority
    ensures r.Ok? ==> r.value.msg.title == flags.title && r.value.quiet == flags.quiet
    // The extras are those of the content type and click URL flags.
    ensures r.Ok? ==> ExtrasFor(r.value.msg.extras, flags.contentType, flags.clickUrl)
  {
    var conf := Effective(config);
    var confErr := config.LoadFailed?;

    var read := ReadMessage(args, stdin);
    if read.Err? {
      return Err(read.error);
    }
    var msgText := read.value;
    if !flags.disableUnescape {
      msgText := unescape(msgText);
    }

    var priority := flags.priority;
    var title := flags.title;
    var token := flags.token;
    var quiet := flags.quiet;
    var contentType := flags.contentType;
    var clickUrl := flags.clickUrl;

    if token == "" {
      if confErr {
        return Err(TokenNotConfigured);
      }
      token := conf.token;
    }

    var stringUrl := flags.url;
    if stringUrl == "" {
      if confErr {
        return Err(UrlNotConfigured);
      }
      stringUrl := conf.url;
    }

    if !flags.prioritySet {
      priority := conf.defaultPriority;
    }

    var msg := Message(msgText, title, priority, map[]);
    var extras := BuildExtras(contentType, clickUrl);
    msg := msg.(extras := extras);

    if !urlParses(stringUrl) {
      return Err(InvalidUrl(stringUrl));
    }

    return Ok(Delivery(msg, token, stringUrl, quiet));
  }

  /** What the user sees after the create-message request. */
  datatype Report = Exit1(reason: string) | Stdout(line: string) | Silent

  /** The request's error, if any, ends the run with status 1 and is
      printed; otherwise a confirmation line is printed unless quiet mode is
      on. */
  function DeliveryReport(sendError: Option<string>, quiet: bool): (r: Report)
    ensures r.Exit1? <==> sendError.Some?
    ensures r.Exit1? ==> r.reason == sendError.value
    ensures r.Silent? <==> sendError.None? && quiet
    ensures r.Stdout? ==> r.line == "message created"
  {
    match sendError
    case Some(err) => Exit1(err)
    case None => if quiet then Silent else Stdout("message created")
  }

  /** Delivering what `DoPush` resolved: when the create-message request
      succeeds, the run is silent exactly when the delivery's quiet flag is
      set, and otherwise prints the confirmation line. */
  lemma DeliveredReportFollowsQuiet(d: Delivery)
    ensures DeliveryReport(None, d.quiet) == Silent <==> d.quiet
    ensures !d.quiet ==> DeliveryReport(None, d.quiet) == Stdout("message created")
  {
  }
}
