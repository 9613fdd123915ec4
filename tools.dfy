/**
 * The two registered tools, `record_user_details` (app.py:26-28) and
 * `record_unknown_question` (app.py:41-43), and the name lookup that
 * dispatches to them (app.py:144-145).
 *
 * A tool's only effect is one push notification; here a call returns the
 * notification it would send instead of sending it. A call whose keyword
 * arguments do not fit the tool's signature raises before the tool body runs.
 */
module Tools {
  import opened Wrappers

  /** Decoded tool arguments: keyword name to string value. */
  type Args = map<string, string>

  const RecordUserDetails: string := "record_user_details"
  const RecordUnknownQuestion: string := "record_unknown_question"

  /** The keyword parameters of `record_user_details`. */
  const UserDetailsParams: set<string> := {"email", "name", "notes"}

  /** The JSON text of the two results a tool call can put into a message. */
  const RecordedOk: string := "{\"recorded\": \"ok\"}"
  const EmptyObject: string := "{}"

  /** A push notification, by the tool that sent it. */
  datatype Notice =
    | UserDetails(email: string, name: string, notes: string)
    | UnknownQuestion(question: string)

  /** What a lookup-and-call of a tool does: raise, or return a JSON result and maybe a notification. */
  datatype Invocation = Raised | Returned(content: string, notice: Option<Notice>)

  /** The value of keyword `key`, or the default when it is absent. */
  function ArgOr(args: Args, key: string, default: string): (v: string)
    ensures key in args ==> v == args[key]
    ensures key !in args ==> v == default
  {
    if key in args then args[key] else default
  }

  /** The text sent to the push service. */
  function Text(n: Notice): (t: string)
    ensures "Recording " <= t
    ensures n.UnknownQuestion? ==> t[|"Recording "|..] == n.question
    ensures n.UserDetails? ==> "Recording " + n.name + " with email " + n.email <= t
  {
    match n
    case UserDetails(email, name, notes) =>
      "Recording " + name + " with email " + email + " and notes " + notes
    case UnknownQuestion(question) =>
      "Recording " + question
  }

  /** The argument a notification is about: the email, or the question. */
  function Subject(n: Notice): string {
    match n
    case UserDetails(email, _, _) => email
    case UnknownQuestion(question) => question
  }

  /** `part` occurs in `s` at some offset. */
  predicate Contains(s: string, part: string) {
    exists i :: 0 <= i <= |s| && part <= s[i..]
  }

  /** Every notification's text carries the email or the question it records. */
  lemma NoticeMentionsSubject(n: Notice)
    ensures Contains(Text(n), Subject(n))
  {
    var s := Text(n);
    match n
    case UserDetails(email, name, notes) =>
      var i := |"Recording "| + |name| + |" with email "|;
      assert s[i..] == email + " and notes " + notes;
    case UnknownQuestion(question) =>
      var i := |"Recording "|;
      assert s[i..] == question;
  }

  /**
   * `tool = globals().get(name); tool(**arguments) if tool else {}` over a
   * registry of exactly the two tools. `record_user_details` takes any subset
   * of its keywords and fills in the defaults of app.py:26;
   * `record_unknown_question` takes exactly `question`; any other name yields
   * the empty object and no notification.
   */
  function Invoke(name: string, args: Args): (r: Invocation)
    ensures r.Raised? <==>
      (name == RecordUserDetails && !(args.Keys <= UserDetailsParams)) ||
      (name == RecordUnknownQuestion && args.Keys != {"question"})
    ensures r.Returned? && name == RecordUserDetails ==>
      r.content == RecordedOk &&
      r.notice == Some(UserDetails(ArgOr(args, "email", "email Not provided"),
                                   ArgOr(args, "name", "Name not provided"),
                                   ArgOr(args, "notes", "not provided")))
    ensures r.Returned? && name == RecordUnknownQuestion ==>
      r.content == RecordedOk && r.notice == Some(UnknownQuestion(args["question"]))
    ensures name != RecordUserDetails && name != RecordUnknownQuestion ==>
      r == Returned(EmptyObject, None)
  {
    if name == RecordUserDetails then
      if args.Keys <= UserDetailsParams then
        Returned(RecordedOk, Some(UserDetails(ArgOr(args, "email", "email Not provided"),
                                              ArgOr(args, "name", "Name not provided"),
                                              ArgOr(args, "notes", "not provided"))))
      else Raised
    else if name == RecordUnknownQuestion then
      if args.Keys == {"question"} then Returned(RecordedOk, Some(UnknownQuestion(args["question"])))
      else Raised
    else Returned(EmptyObject, None)
  }
}
