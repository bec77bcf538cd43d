/**
  `FrontogetherGui.send`: routing of the chat input. Commands start with `/`;
  `/open ` loads a URL, every other command is refused, and anything else
  starts one agent worker. The Qt widgets become the fields of `SendOutcome`.
*/
module Gui {
  import opened Base

  predicate StartsWith(s: string, prefix: string) {
    |prefix| <= |s| && s[..|prefix|] == prefix
  }

  /** The argument of `str.lstrip("/open ")`: a set of characters, not a prefix. */
  const OpenChars: set<char> := {'/', 'o', 'p', 'e', 'n', ' '}

  /** `r` is what remains of `s` once its longest leading run of characters from `chars` is dropped. */
  predicate IsLStrip(s: string, chars: set<char>, r: string) {
    && |r| <= |s|
    && r == s[|s| - |r|..]
    && (forall i :: 0 <= i < |s| - |r| ==> s[i] in chars)
    && (r == [] || r[0] !in chars)
  }

  /** `str.lstrip(chars)`. */
  function LStrip(s: string, chars: set<char>): (r: string)
    ensures |r| <= |s| && r == s[|s| - |r|..]
    ensures r == [] || r[0] !in chars
    decreases |s|
  {
    if |s| > 0 && s[0] in chars then LStrip(s[1..], chars) else s
  }

  /** `LStrip` strips as `IsLStrip` describes. */
  lemma {:induction false} LStripStrips(s: string, chars: set<char>)
    ensures IsLStrip(s, chars, LStrip(s, chars))
    decreases |s|
  {
    if |s| > 0 && s[0] in chars {
      var r := LStrip(s[1..], chars);
      LStripStrips(s[1..], chars);
      forall i | 0 <= i < |s| - |r| ensures s[i] in chars {
        if i > 0 { assert s[i] == s[1..][i - 1]; }
      }
    }
  }

  /** Nothing but `LStrip` strips as `IsLStrip` describes. */
  lemma {:induction false} LStripUnique(s: string, chars: set<char>, r: string)
    requires IsLStrip(s, chars, r)
    ensures r == LStrip(s, chars)
    decreases |s|
  {
    if |s| - |r| > 0 {
      assert s[0] in chars;
      assert r == s[1..][|s[1..]| - |r|..];
      forall i | 0 <= i < |s[1..]| - |r| ensures s[1..][i] in chars {
        assert s[1..][i] == s[i + 1];
      }
      LStripUnique(s[1..], chars, r);
    } else {
      assert r == s;
    }
  }

  /** `LStrip` is exactly the stripping `IsLStrip` describes. */
  lemma LStripCharacterised(s: string, chars: set<char>, r: string)
    ensures IsLStrip(s, chars, r) <==> r == LStrip(s, chars)
  {
    LStripStrips(s, chars);
    if IsLStrip(s, chars, r) {
      LStripUnique(s, chars, r);
    }
  }

  /** Stripping twice strips nothing more. */
  lemma LStripIdempotent(s: string, chars: set<char>)
    ensures LStrip(LStrip(s, chars), chars) == LStrip(s, chars)
  {
  }

  /** A leading run from the set goes, whatever follows it. */
  lemma {:induction false} LStripSkips(p: string, u: string, chars: set<char>)
    requires forall i :: 0 <= i < |p| ==> p[i] in chars
    ensures LStrip(p + u, chars) == LStrip(u, chars)
    decreases |p|
  {
    if |p| > 0 {
      assert (p + u)[0] == p[0] && (p + u)[1..] == p[1..] + u;
      LStripSkips(p[1..], u, chars);
    } else {
      assert p + u == u;
    }
  }

  /** The agent worker started for a message: the input and the screenshot, if one was attached. */
  datatype WorkerStart = WorkerStart(content: string, attachment: Option<string>)

  /**
    What one press of the send button leaves behind: the texts inserted into
    the chat, the URL loaded into the web view, the worker started, the state
    of the screenshot checkbox, and the input box.
  */
  datatype SendOutcome = SendOutcome(
    chat: seq<string>,
    openUrl: Option<string>,
    worker: Option<WorkerStart>,
    screenshotChecked: bool,
    input: string)

  /**
    `send`, with the input text, the checkbox state and the base64 screenshot
    that grabbing the canvas would give.
  */
  function Send(inp: string, checked: bool, shot: string): (o: SendOutcome)
    ensures o.input == ""
    ensures o.worker.None? <==> StartsWith(inp, "/")
    ensures o.worker.Some? ==> o.worker.value.content == inp
    ensures o.worker.Some? ==> (o.worker.value.attachment.Some? <==> checked)
    ensures o.screenshotChecked <==> checked && StartsWith(inp, "/")
    ensures o.openUrl.Some? <==> StartsWith(inp, "/open ")
    ensures StartsWith(inp, "/") ==> |o.chat| >= 1 && o.chat[0] == "command " + inp
    ensures StartsWith(inp, "/open ") ==> o.chat == ["command " + inp]
  {
    if StartsWith(inp, "/") then
      var echo := "command " + inp;
      if StartsWith(inp, "/open ") then
        SendOutcome([echo], Some(LStrip(inp, OpenChars)), None, checked, "")
      else
        SendOutcome([echo, "error: invalid command " + inp], None, None, checked, "")
    else
      var attachment := if checked then Some(shot) else None;
      SendOutcome(["\nuser: " + inp + "\n"], None, Some(WorkerStart(inp, attachment)), false, "")
  }

  /** A message that is not a command is echoed once, as a user line, and goes to exactly one worker. */
  lemma MessageStartsWorker(inp: string, checked: bool, shot: string)
    requires !StartsWith(inp, "/")
    ensures var o := Send(inp, checked, shot);
      && o.chat == ["\nuser: " + inp + "\n"]
      && o.openUrl == None
      && o.worker == Some(WorkerStart(inp, if checked then Some(shot) else None))
  {
  }

  /** Every command but `/open ` is echoed and then refused. */
  lemma OtherCommandRefused(inp: string, checked: bool, shot: string)
    requires StartsWith(inp, "/") && !StartsWith(inp, "/open ")
    ensures Send(inp, checked, shot).chat == ["command " + inp, "error: invalid command " + inp]
  {
  }

  /** `/open` without the space is not the open command. */
  lemma OpenWithoutSpaceRefused(checked: bool, shot: string)
    ensures Send("/open", checked, shot).chat == ["command /open", "error: invalid command /open"]
    ensures Send("/open", checked, shot).openUrl == None
  {
    assert StartsWith("/open", "/") by { assert "/open"[..1] == "/"; }
    assert !StartsWith("/open", "/open ");
    assert "command " + "/open" == "command /open";
    assert "error: invalid command " + "/open" == "error: invalid command /open";
  }

  /** The URL opened is the input with every leading character from the set dropped. */
  lemma OpenedUrl(url: string, checked: bool, shot: string)
    ensures Send("/open " + url, checked, shot).openUrl == Some(LStrip(url, OpenChars))
  {
    var inp := "/open " + url;
    assert inp[..6] == "/open " && inp[..1] == "/";
    LStripSkips("/open ", url, OpenChars);
  }

  /** A URL that does not begin with one of those characters is opened unchanged. */
  lemma OpenedUrlUnchanged(url: string, checked: bool, shot: string)
    requires url == [] || url[0] !in OpenChars
    ensures Send("/open " + url, checked, shot).openUrl == Some(url)
  {
    OpenedUrl(url, checked, shot);
  }

  /**
    `/open openai.com` loads `ai.com`: a host that begins with letters of the
    set loses them too, here the `open` of `openai.com`.
  */
  lemma OpenStripsHostLetters(host: string, checked: bool, shot: string)
    requires host == [] || host[0] !in OpenChars
    ensures Send("/open " + ("open" + host), checked, shot).openUrl == Some(host)
  {
    assert LStrip("open" + host, OpenChars) == host by {
      LStripSkips("open", host, OpenChars);
      StripStops(host, OpenChars);
    }
    OpenedUrl("open" + host, checked, shot);
  }

  /** The instance itself. */
  lemma OpenOpenAi(checked: bool, shot: string)
    ensures Send("/open openai.com", checked, shot).openUrl == Some("ai.com")
  {
    assert "/open " + ("open" + "ai.com") == "/open openai.com" by {
      assert "open" + "ai.com" == "openai.com";
    }
    OpenStripsHostLetters("ai.com", checked, shot);
  }

  lemma StripStops(u: string, chars: set<char>)
    requires u == [] || u[0] !in chars
    ensures LStrip(u, chars) == u
  {
  }

  /**
    The argument of `/open ` as the command evidently means it: the input with
    the six-character prefix removed, rather than with every leading character
    from `OpenChars` stripped.
  */
  function OpenArgument(inp: string): (url: Option<string>)
    ensures url.Some? <==> StartsWith(inp, "/open ")
    ensures url.Some? ==> "/open " + url.value == inp
  {
    if StartsWith(inp, "/open ") then Some(inp[|"/open "|..]) else None
  }

  /** Every URL survives the corrected command unchanged. */
  lemma OpenArgumentRoundTrip(url: string)
    ensures OpenArgument("/open " + url) == Some(url)
  {
    var inp := "/open " + url;
    assert inp[..6] == "/open ";
    assert inp[6..] == url;
  }

  /** On `/open openai.com` the two part ways: the command as written loads `ai.com`. */
  lemma OpenStripsTooMuch(checked: bool, shot: string)
    ensures OpenArgument("/open openai.com") == Some("openai.com")
    ensures Send("/open openai.com", checked, shot).openUrl == Some("ai.com")
  {
    assert "/open " + "openai.com" == "/open openai.com";
    OpenArgumentRoundTrip("openai.com");
    OpenOpenAi(checked, shot);
  }
}
