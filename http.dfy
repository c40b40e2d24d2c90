/** What the two backends share: the outcome of one HTTP exchange (the
    transport itself is not modelled), the chat message shape, base-URL
    normalisation, and the extraction of model names from a listing. */
module Http {
  import opened Text
  import opened Values

  /** How one request ended. `Response` means the status was read and, where
      the code reads it, the body was decoded; an exception raised while
      sending or decoding is one of the other three: `ClientConnectorError`,
      another `aiohttp.ClientError` subclass (named), or any other exception
      (named). */
  datatype HttpOutcome =
    | Response(status: nat, body: Json)
    | ConnectorError
    | ClientError(name: string)
    | OtherError(name: string)

  /** The markers the user-facing warnings start with: "⚠️ " and "🤔 ". */
  const Warning: string := "\U{26A0}\U{FE0F} "
  const Thinking: string := "\U{1F914} "

  /** Where the first characters of a reply built as marker, lead and rest
      come from. Every reply text is written as marker + lead + rest, whose
      concatenation is the source's text: the split lets these lemmas read
      the characters after the marker without unfolding a long literal. */
  lemma WarningChars(lead: string, rest: string)
    requires |lead| >= 2
    ensures var s := Warning + lead + rest;
            |s| >= 5 && s[0] == '\U{26A0}' && s[3] == lead[0] && s[4] == lead[1]
  {
  }

  lemma ThinkingChars(lead: string, rest: string)
    requires |lead| >= 3
    ensures var s := Thinking + lead + rest;
            |s| >= 5 && s[0] == '\U{1F914}' && s[3] == lead[1] && s[4] == lead[2]
  {
  }

  /** The reply texts both backends share: the rephrase request, an HTTP
      error introduced by `lead`, and the two that name an exception class. */
  const EmptyContentText: string := Thinking + "I generated" + " an empty response. Try rephrasing?"

  function StatusText(lead: string, status: nat): string {
    Warning + lead + " (HTTP " + Decimal(status) + ")"
  }

  function RequestFailedText(name: string): string {
    Warning + "Request to model" + " failed: " + name
  }

  function UnexpectedText(name: string): string {
    Warning + "Unexpected error: " + name
  }

  /** The characters at positions 0, 3 and 4 of a reply, which are enough to
      tell the failure branches of either backend apart. */
  function Key(v: Json): (char, char, char) {
    if v.JStr? && |v.s| >= 5 then (v.s[0], v.s[3], v.s[4]) else (' ', ' ', ' ')
  }

  lemma StatusKey(lead: string, status: nat)
    requires |lead| >= 2
    ensures Key(JStr(StatusText(lead, status))) == ('\U{26A0}', lead[0], lead[1])
  {
    WarningChars(lead, " (HTTP " + Decimal(status) + ")");
  }

  lemma SharedKeys(name: string)
    ensures Key(JStr(EmptyContentText)) == ('\U{1F914}', ' ', 'g')
    ensures Key(JStr(RequestFailedText(name))) == ('\U{26A0}', 'R', 'e')
    ensures Key(JStr(UnexpectedText(name))) == ('\U{26A0}', 'U', 'n')
  {
    ThinkingChars("I generated", " an empty response. Try rephrasing?");
    WarningChars("Request to model", " failed: " + name);
    WarningChars("Unexpected error: ", name);
  }

  /** An HTTP error text names its status: equal texts, equal statuses. */
  lemma StatusTextInjective(lead: string, s1: nat, s2: nat)
    requires StatusText(lead, s1) == StatusText(lead, s2)
    ensures s1 == s2
  {
    var p := Warning + lead + " (HTTP ";
    assert StatusText(lead, s1) == p + Decimal(s1) + ")";
    assert StatusText(lead, s2) == p + Decimal(s2) + ")";
    CancelSuffix(p + Decimal(s1), p + Decimal(s2), ")");
    CancelPrefix(p, Decimal(s1), Decimal(s2));
    DecimalInjective(s1, s2);
  }

  /** The exception texts name the exception class. */
  lemma NamedTextsInjective(n1: string, n2: string)
    ensures RequestFailedText(n1) == RequestFailedText(n2) ==> n1 == n2
    ensures UnexpectedText(n1) == UnexpectedText(n2) ==> n1 == n2
  {
    if RequestFailedText(n1) == RequestFailedText(n2) {
      CancelPrefix(Warning + "Request to model" + " failed: ", n1, n2);
    }
    if UnexpectedText(n1) == UnexpectedText(n2) {
      CancelPrefix(Warning + "Unexpected error: ", n1, n2);
    }
  }

  /** One entry of the `messages` array sent to a chat endpoint. */
  datatype ChatMessage = ChatMessage(role: string, content: string)

  predicate IsSlash(c: char) {
    c == '/'
  }

  /** `api_url.rstrip("/")`, as both backend constructors store it. */
  function NormalizeUrl(url: string): (r: string)
    ensures r == [] || r[|r| - 1] != '/'
    ensures |r| <= |url| && r == url[..|r|] && forall k :: |r| <= k < |url| ==> url[k] == '/'
  {
    RStrip(url, IsSlash)
  }

  lemma NormalizeUrlIdempotent(url: string)
    ensures NormalizeUrl(NormalizeUrl(url)) == NormalizeUrl(url)
  {
    var r := NormalizeUrl(url);
    assert RStrip(r, IsSlash) == r;
  }

  predicate HasField(j: Json, key: string) {
    j.JObj? && key in j.fields
  }

  /** `[m[itemKey] for m in data.get(listKey, [])]`, with every exception the
      comprehension can raise turned into `[]` as the callers' handlers do.
      Iterating a dict or a string yields strings, and `str[itemKey]` raises,
      so only a list whose every element is a dict holding `itemKey` gives a
      non-empty answer; `None`, numbers and booleans are not iterable. */
  function Pluck(data: Json, listKey: string, itemKey: string): seq<Json> {
    match Get(data, listKey, JArr([]))
    case Raised(_) => []
    case Value(v) =>
      if v.JArr? && forall i :: 0 <= i < |v.items| ==> HasField(v.items[i], itemKey)
      then seq(|v.items|, i requires 0 <= i < |v.items| && HasField(v.items[i], itemKey) =>
                 v.items[i].fields[itemKey])
      else []
  }

  /** `list_models` of either backend, given the outcome of its GET. */
  function ListModels(o: HttpOutcome, listKey: string, itemKey: string): (r: seq<Json>)
    ensures !(o.Response? && o.status == 200) ==> r == []
    ensures o.Response? && o.status == 200 && o.body.JObj? && listKey in o.body.fields ==>
              var v := o.body.fields[listKey];
              (v.JArr? && (forall i :: 0 <= i < |v.items| ==> HasField(v.items[i], itemKey))) ==>
                |r| == |v.items| && forall i :: 0 <= i < |r| ==> r[i] == v.items[i].fields[itemKey]
  {
    if o.Response? && o.status == 200 then Pluck(o.body, listKey, itemKey) else []
  }

  /** A non-empty listing comes from a 200 response whose list held the key in
      every element: nothing is returned from a partly malformed listing. */
  lemma ListModelsAllOrNothing(o: HttpOutcome, listKey: string, itemKey: string)
    requires ListModels(o, listKey, itemKey) != []
    ensures o.Response? && o.status == 200 && o.body.JObj? && listKey in o.body.fields
    ensures var v := o.body.fields[listKey];
              v.JArr? && forall i :: 0 <= i < |v.items| ==> HasField(v.items[i], itemKey)
  {
  }
}
