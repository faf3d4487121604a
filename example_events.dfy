/** The table of canned example payloads per handler and the rule that names
    the fixture file of one (handler, event) pair. The table is the embedded
    one, already decoded; reading the fixture files is not modelled. */
module ExampleEvents {
  import opened Wrappers

  /** The file extension of a fixture whose handler names none. */
  const DefaultExtension := "json"

  /** Every fixture file name starts with this. */
  const FilenamePrefix := "event-example_"

  /** What the table says about one handler: the extension of its fixtures
      ("" when not given) and the slugs of its example events. */
  datatype ExampleSource = ExampleSource(fileExtension: string, eventSlugs: seq<string>)

  /** The table, keyed by handler key. */
  datatype ExampleData = ExampleData(data: map<string, ExampleSource>) {

    /** The extension of `handlerKey`'s fixtures: the table's value when the key is
        listed with a non-empty extension, the default otherwise. Never empty. */
    function Extension(handlerKey: string): (ext: string)
      ensures |ext| > 0
      ensures handlerKey !in data ==> ext == DefaultExtension
      ensures handlerKey in data && |data[handlerKey].fileExtension| == 0 ==> ext == DefaultExtension
      ensures handlerKey in data && |data[handlerKey].fileExtension| > 0 ==> ext == data[handlerKey].fileExtension
    {
      if handlerKey in data && |data[handlerKey].fileExtension| > 0
      then data[handlerKey].fileExtension
      else DefaultExtension
    }

    /** The file name of the fixture for `eventSlug` of `handlerKey`. The slug is
        not checked against the table's slugs. */
    function BuildFilename(handlerKey: string, eventSlug: string): (name: string)
      ensures SlugOf(name, Extension(handlerKey)) == Some(eventSlug)
    {
      var ext := Extension(handlerKey);
      var name := FilenamePrefix + eventSlug + "." + ext;
      SlugOfBuilt(eventSlug, ext);
      name
    }
  }

  /** The inverse of the naming rule for a known extension: the slug between the
      prefix and "." + `ext`, if `name` has that shape. */
  function SlugOf(name: string, ext: string): Option<string>
  {
    var tail := "." + ext;
    if |FilenamePrefix| + |tail| <= |name|
       && name[..|FilenamePrefix|] == FilenamePrefix
       && name[|name| - |tail|..] == tail
    then Some(name[|FilenamePrefix|..|name| - |tail|])
    else None
  }

  lemma SlugOfBuilt(eventSlug: string, ext: string)
    ensures SlugOf(FilenamePrefix + eventSlug + "." + ext, ext) == Some(eventSlug)
  {
    var tail := "." + ext;
    var name := FilenamePrefix + eventSlug + "." + ext;
    assert name == FilenamePrefix + eventSlug + tail;
    assert name[..|FilenamePrefix|] == FilenamePrefix;
    assert name[|name| - |tail|..] == tail;
    assert name[|FilenamePrefix|..|name| - |tail|] == eventSlug;
  }

  /** Within one handler, different event slugs get different fixture files. */
  lemma BuildFilenameInjective(d: ExampleData, handlerKey: string, s1: string, s2: string)
    requires d.BuildFilename(handlerKey, s1) == d.BuildFilename(handlerKey, s2)
    ensures s1 == s2
  {
    assert Some(s1) == SlugOf(d.BuildFilename(handlerKey, s1), d.Extension(handlerKey));
  }

  /** The file name depends on the table only through the extension listed for
      `handlerKey`: the other handlers and the event slugs play no part. */
  lemma BuildFilenameReadsOnlyExtension(d1: ExampleData, d2: ExampleData, handlerKey: string, eventSlug: string)
    requires (handlerKey in d1.data) == (handlerKey in d2.data)
    requires handlerKey in d1.data ==> d1.data[handlerKey].fileExtension == d2.data[handlerKey].fileExtension
    ensures d1.BuildFilename(handlerKey, eventSlug) == d2.BuildFilename(handlerKey, eventSlug)
  {
  }

  /** The embedded table. Only the "event_slugs" member of each entry is read;
      entries that also list "event_slugs_" or "event_slugs__" keep those out. */
  const Embedded := ExampleData(map[
    "appsignal" := ExampleSource("json", ["marker", "exception", "performance"]),
    "apteligent" := ExampleSource("", ["alert", "alert-open", "alert-close"]),
    "bugsnag" := ExampleSource("", ["exception-stack-trace-single", "exception-stack-trace-multi"]),
    "confluence" := ExampleSource("", ["page-created", "comment-created"]),
    "deskdotcom" := ExampleSource("", ["formatted1", "formatted2"]),
    "gosquared" := ExampleSource("", ["site-traffic", "smart-group", "live-chat"]),
    "heroku" := ExampleSource("txt", ["build"]),
    "librato" := ExampleSource("", ["2", "alert-triggered", "alert-cleared"]),
    "marketo" := ExampleSource("", ["formatted1", "formatted2", "demo1"]),
    "opsgenie" := ExampleSource("", ["remove-tags", "assign-ownership", "take-ownership", "escalate",
                                     "custom-action-test-action"]),
    "papertrail" := ExampleSource("", ["notifications-array-len-1", "notifications-array"]),
    "pingdom" := ExampleSource("", ["http-check"]),
    "semaphore" := ExampleSource("", ["build", "deploy"]),
    "slack" := ExampleSource("", ["attachment", "link-emoji"]),
    "statuspage" := ExampleSource("", ["incident-updates", "incident-updates-create", "component-updates"]),
    "userlike" := ExampleSource("", ["chat-widget_config", "offline-message_receive", "operator_away",
                                     "operator_back", "operator_offline", "operator_online"])
  ])

  /** Heroku's fixtures are text files. */
  lemma HerokuFilename()
    ensures Embedded.BuildFilename("heroku", "build") == "event-example_build.txt"
  {
    assert Embedded.data["heroku"].fileExtension == "txt";
  }

  /** Confluence lists no extension and gets the default. */
  lemma ConfluenceFilename()
    ensures Embedded.BuildFilename("confluence", "page-created") == "event-example_page-created.json"
  {
    assert Embedded.data["confluence"].fileExtension == "";
  }

  /** A handler missing from the table gets the default extension too. */
  lemma UnlistedFilename()
    ensures Embedded.BuildFilename("runscope", "notification") == "event-example_notification.json"
  {
    assert "runscope" !in Embedded.data;
  }
}
