/**
 * The API debugger panel (src/components/ApiDebugger.tsx): it watches the
 * first argument of every `console.log`, records the ones that announce an
 * axios request with their method and url, and shows the calls of the last
 * minute. Replacing `console.log` itself is not part of this model; each
 * logged first argument reaches `Log` with the time it was logged.
 */
module ApiDebugger {
  import opened Types
  import opened Seqs

  const RequestTag := "[Axios Request]"
  const RecentWindowMs := 60000

  datatype ApiCall = ApiCall(url: string, timestamp: int, verb: string)

  /** Only a string first argument that contains the request tag is recorded. */
  predicate Recorded(message: Scalar)
  {
    message.Str? && Contains(message.s, RequestTag)
  }

  /** The method named in the message: GET, POST, PUT, DELETE in that priority, GET when none is. */
  function MethodOf(message: string): (m: string)
    ensures m in {"GET", "POST", "PUT", "DELETE"}
    ensures m == "GET" <==> Contains(message, "GET") || !(Contains(message, "POST") || Contains(message, "PUT") || Contains(message, "DELETE"))
    ensures m == "POST" <==> !Contains(message, "GET") && Contains(message, "POST")
    ensures m == "PUT" <==> !Contains(message, "GET") && !Contains(message, "POST") && Contains(message, "PUT")
    ensures m == "DELETE" <==> !Contains(message, "GET") && !Contains(message, "POST") && !Contains(message, "PUT") && Contains(message, "DELETE")
  {
    if Contains(message, "GET") then "GET"
    else if Contains(message, "POST") then "POST"
    else if Contains(message, "PUT") then "PUT"
    else if Contains(message, "DELETE") then "DELETE"
    else "GET"
  }

  /**
   * `message.split(' ').pop() || ''`: the text after the last space, the whole
   * message when it has none, and empty when it ends with a space.
   */
  function LastToken(message: string): (t: string)
    ensures |t| <= |message| && t == message[|message| - |t|..]
    ensures forall i :: 0 <= i < |t| ==> t[i] != ' '
    ensures |t| == |message| || message[|message| - |t| - 1] == ' '
  {
    if message == [] || message[|message| - 1] == ' ' then []
    else LastToken(message[..|message| - 1]) + [message[|message| - 1]]
  }

  /** A url without spaces at the end of a message, after a space, is what gets recorded. */
  lemma {:induction false} LastTokenOfLine(prefix: string, url: string)
    requires forall i :: 0 <= i < |url| ==> url[i] != ' '
    ensures LastToken(prefix + " " + url) == url
    decreases |url|
  {
    var line := prefix + " " + url;
    if url == [] {
      assert line[|line| - 1] == ' ';
    } else {
      var shorter := url[..|url| - 1];
      assert line[..|line| - 1] == prefix + " " + shorter;
      LastTokenOfLine(prefix, shorter);
      assert url == shorter + [url[|url| - 1]];
    }
  }

  /** The line the axios request interceptor logs for a request (src/lib/axios.ts:25). */
  function InterceptorLine(verb: string, url: string): string
  {
    RequestTag + " " + verb + " " + url
  }

  /** A word found in `a + " " + b` lies wholly within `a` or within `b`, unless it holds a space. */
  lemma {:induction false} WordAcrossSpace(a: string, b: string, word: string)
    ensures Contains(a + " " + b, word) ==> Contains(a, word) || Contains(b, word) || ' ' in word
  {
    var s := a + " " + b;
    ContainsAt(s, word);
    if Contains(s, word) {
      var i :| OccursAt(s, word, i);
      if i + |word| <= |a| {
        assert s[..|a|] == a;
        assert s[i..i + |word|] == s[..|a|][i..i + |word|];
        assert OccursAt(a, word, i);
        ContainsAt(a, word);
      } else if i > |a| {
        var j := i - |a| - 1;
        assert s[|a| + 1..] == b;
        assert s[i..i + |word|] == s[|a| + 1..][j..j + |word|];
        assert OccursAt(b, word, j);
        ContainsAt(b, word);
      } else {
        assert word[|a| - i] == s[|a|];
      }
    }
  }

  /** A text that contains a word holds the word's first character and is at least as long. */
  lemma {:induction false} ContainsNeedsFirst(s: string, word: string)
    requires |word| > 0
    ensures Contains(s, word) ==> word[0] in s && |word| <= |s|
  {
    ContainsAt(s, word);
    if Contains(s, word) {
      var i :| OccursAt(s, word, i);
      assert s[i] == s[i..i + |word|][0];
    }
  }

  /**
   * A word without spaces whose first character the tag lacks occurs in an
   * interceptor line only inside the verb or the url. The method names start
   * with `G`, `P` and `D`, which `[Axios Request]` does not hold.
   */
  lemma {:induction false} WordInLine(verb: string, url: string, name: string)
    requires |name| > 0 && ' ' !in name && name[0] !in RequestTag
    ensures Contains(InterceptorLine(verb, url), name) ==> Contains(verb, name) || Contains(url, name)
  {
    ContainsNeedsFirst(RequestTag, name);
    WordAcrossSpace(RequestTag, verb, name);
    assert InterceptorLine(verb, url) == (RequestTag + " " + verb) + " " + url;
    WordAcrossSpace(RequestTag + " " + verb, url, name);
  }

  /** The tag holds neither `G` nor `P`, and the method names hold no space. */
  lemma {:induction false} TagLacksInitials()
    ensures 'G' !in RequestTag && 'P' !in RequestTag
    ensures ' ' !in "GET" && ' ' !in "POST" && ' ' !in "PUT"
  {
  }

  /** The interceptor line names its verb. */
  lemma {:induction false} LineHoldsVerb(verb: string, url: string)
    ensures Contains(InterceptorLine(verb, url), verb)
  {
    var line := InterceptorLine(verb, url);
    assert line[|RequestTag| + 1..|RequestTag| + 1 + |verb|] == verb;
    assert OccursAt(line, verb, |RequestTag| + 1);
    ContainsAt(line, verb);
  }

  /**
   * A line that holds the verb, no `GET`, and neither of `POST` and `PUT`
   * unless it is the verb, is read as that verb.
   */
  lemma {:induction false} MethodOfVerbLine(line: string, verb: string)
    requires verb in {"POST", "PUT", "DELETE"} && Contains(line, verb)
    requires !Contains(line, "GET")
    requires verb != "POST" ==> !Contains(line, "POST")
    requires verb == "DELETE" ==> !Contains(line, "PUT")
    ensures MethodOf(line) == verb
  {
  }

  /** A POST, PUT or DELETE line whose url names no method is read as its verb. */
  lemma {:induction false} VerbsInLine(verb: string, url: string)
    requires verb in {"POST", "PUT", "DELETE"}
    ensures !Contains(url, "GET") && !Contains(url, "POST") && !Contains(url, "PUT")
            ==> MethodOf(InterceptorLine(verb, url)) == verb
  {
    if !Contains(url, "GET") && !Contains(url, "POST") && !Contains(url, "PUT") {
      TagLacksInitials();
      LineHoldsVerb(verb, url);
      ContainsNeedsFirst(verb, "GET");
      ContainsNeedsFirst(verb, "POST");
      ContainsNeedsFirst(verb, "PUT");
      WordInLine(verb, url, "GET");
      WordInLine(verb, url, "POST");
      WordInLine(verb, url, "PUT");
      MethodOfVerbLine(InterceptorLine(verb, url), verb);
    }
  }

  /**
   * Every line the interceptor logs is recorded, with the request's url when
   * the url has no space. A GET request is recorded as a GET, and a POST,
   * PUT or DELETE request as itself when its url contains none of `GET`,
   * `POST` and `PUT` (the names checked before `DELETE`).
   */
  lemma {:induction false} InterceptorLineRecorded(verb: string, url: string, now: int)
    requires forall i :: 0 <= i < |url| ==> url[i] != ' '
    ensures Recorded(Str(InterceptorLine(verb, url)))
    ensures CallOf(InterceptorLine(verb, url), now).url == url
    ensures verb == "GET" ==> CallOf(InterceptorLine(verb, url), now).verb == "GET"
    ensures verb in {"POST", "PUT", "DELETE"} && !Contains(url, "GET") && !Contains(url, "POST") && !Contains(url, "PUT")
            ==> CallOf(InterceptorLine(verb, url), now).verb == verb
  {
    if verb in {"POST", "PUT", "DELETE"} {
      VerbsInLine(verb, url);
    }
    var line := InterceptorLine(verb, url);
    assert OccursAt(line, RequestTag, 0);
    ContainsAt(line, RequestTag);
    assert line == (RequestTag + " " + verb) + " " + url;
    LastTokenOfLine(RequestTag + " " + verb, url);
    if verb == "GET" {
      LineHoldsVerb(verb, url);
    }
  }

  /** The entry a recorded message adds. */
  function CallOf(message: string, now: int): (c: ApiCall)
    ensures c.url == LastToken(message) && c.timestamp == now && c.verb == MethodOf(message)
  {
    ApiCall(LastToken(message), now, MethodOf(message))
  }

  /** `call.timestamp > now - 60000`. */
  predicate Recent(call: ApiCall, now: int)
  {
    call.timestamp > now - RecentWindowMs
  }

  /** `getRecentCalls()`: the calls of the last minute, in the order they were made. */
  function RecentCalls(calls: seq<ApiCall>, now: int): (r: seq<ApiCall>)
    ensures forall i :: 0 <= i < |r| ==> r[i] in calls && Recent(r[i], now)
    ensures forall i :: 0 <= i < |calls| && Recent(calls[i], now) ==> calls[i] in r
    ensures multiset(r) <= multiset(calls)
  {
    Filter(calls, (c: ApiCall) => Recent(c, now))
  }

  /**
   * The recent calls, one recorded call at a time: none for an empty log,
   * and a further call is appended at the end exactly when it is recent. So
   * the order in which calls were recorded, and any repetition, is kept.
   */
  lemma {:induction false} RecentCallsAppend(calls: seq<ApiCall>, call: ApiCall, now: int)
    ensures RecentCalls([], now) == []
    ensures RecentCalls(calls + [call], now) == RecentCalls(calls, now) + (if Recent(call, now) then [call] else [])
  {
    FilterAppend(calls, [call], (c: ApiCall) => Recent(c, now));
    FilterSingleton(call, (c: ApiCall) => Recent(c, now));
  }

  /** A call just recorded is the last of the recent calls at the time it was recorded. */
  lemma {:induction false} NewCallIsRecent(calls: seq<ApiCall>, message: string, now: int)
    ensures var r := RecentCalls(calls + [CallOf(message, now)], now);
      r == RecentCalls(calls, now) + [CallOf(message, now)]
  {
    FilterAppend(calls, [CallOf(message, now)], (c: ApiCall) => Recent(c, now));
  }

  /** The panel's list of recorded calls. */
  class Debugger {
    var apiCalls: seq<ApiCall>

    constructor()
      ensures apiCalls == []
    {
      apiCalls := [];
    }

    /** The patched `console.log`: one entry appended for a request message, nothing otherwise. */
    method Log(message: Scalar, now: int)
      modifies this
      ensures Recorded(message) ==> apiCalls == old(apiCalls) + [CallOf(message.s, now)]
      ensures !Recorded(message) ==> apiCalls == old(apiCalls)
    {
      if Recorded(message) {
        apiCalls := apiCalls + [CallOf(message.s, now)];
      }
    }

    /** `clearCalls()`. */
    method Clear()
      modifies this
      ensures apiCalls == []
    {
      apiCalls := [];
    }

    /** The calls the panel shows at time `now`. */
    function Shown(now: int): (r: seq<ApiCall>)
      reads this
      ensures |r| <= |apiCalls|
      ensures forall i :: 0 <= i < |r| ==> r[i] in apiCalls && Recent(r[i], now)
      ensures forall i :: 0 <= i < |apiCalls| && Recent(apiCalls[i], now) ==> apiCalls[i] in r
      ensures multiset(r) <= multiset(apiCalls)
    {
      RecentCalls(apiCalls, now)
    }
  }
}
