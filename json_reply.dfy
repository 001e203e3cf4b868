/**
 * How the agents clean a language model's reply before handing it to the
 * JSON parser: an opening ```json fence is cut away with the last ``` after
 * it and the rest stripped; newlines, carriage returns and tabs become
 * spaces; every run of white space becomes one space.
 */
module JsonReply {
  import opened Wrappers
  import PyStr

  const Fence: string := "```json"
  const Close: string := "```"

  /** The fence rule: only a reply that opens with ```json and has a ``` past the fence is cut. */
  function Unfence(text: string): string
  {
    if PyStr.StartsWith(text, Fence) then
      match PyStr.RFind(text, Close)
      case Some(end) => if end > |Fence| then PyStr.Strip(text[|Fence|..end]) else text
      case None => text
    else text
  }

  /** A reply without the opening fence is left alone; a fenced body is cut out and stripped. */
  lemma UnfenceRules(text: string, body: string)
    ensures !PyStr.StartsWith(text, Fence) ==> Unfence(text) == text
    ensures Unfence(Fence + body + Close) == if body != [] then PyStr.Strip(body) else Fence + Close
  {
    var t := Fence + body + Close;
    var e := |Fence| + |body|;
    assert t[e..e + |Close|] == Close;
    assert PyStr.OccursAt(t, Close, e);
    assert t[..|Fence|] == Fence;
    assert PyStr.StartsWith(t, Fence);
    var r := PyStr.RFind(t, Close);
    assert r == Some(e);
    assert t[|Fence|..e] == body;
  }

  predicate IsControl(c: char)
  {
    c == '\n' || c == '\r' || c == '\t'
  }

  /** re.sub(r'[\n\r\t]', ' ', s). */
  function ReplaceControls(s: string): (r: string)
    ensures |r| == |s|
  {
    if s == [] then [] else [if IsControl(s[0]) then ' ' else s[0]] + ReplaceControls(s[1..])
  }

  /** Quotes play no part: every newline, carriage return or tab, inside a string literal or not, becomes a space. */
  lemma {:induction false} ReplaceControlsAt(s: string)
    ensures forall i :: 0 <= i < |s| ==> ReplaceControls(s)[i] == if IsControl(s[i]) then ' ' else s[i]
  {
    if s != [] {
      ReplaceControlsAt(s[1..]);
      var r := ReplaceControls(s);
      assert forall i :: 1 <= i < |s| ==> r[i] == ReplaceControls(s[1..])[i - 1] && s[i] == s[1..][i - 1];
    }
  }

  /** re.sub(r'\s+', ' ', s), where afterSpace says the character before s was white space. */
  function CollapseFrom(s: string, afterSpace: bool): string
  {
    if s == [] then []
    else if PyStr.IsSpace(s[0]) then (if afterSpace then [] else " ") + CollapseFrom(s[1..], true)
    else [s[0]] + CollapseFrom(s[1..], false)
  }

  /** The reply text as it is handed to the parser. */
  function Clean(text: string): string
  {
    CollapseFrom(ReplaceControls(text), false)
  }

  /** The characters of s that are not white space, in order. */
  function Visible(s: string): string
  {
    if s == [] then [] else (if PyStr.IsSpace(s[0]) then [] else [s[0]]) + Visible(s[1..])
  }

  /** The white space left in s is single ' ' characters. */
  predicate Collapsed(s: string)
  {
    && (forall i :: 0 <= i < |s| && PyStr.IsSpace(s[i]) ==> s[i] == ' ')
    && (forall i :: 0 <= i < |s| - 1 ==> !(s[i] == ' ' && s[i + 1] == ' '))
  }

  lemma {:induction false} CollapseFromCollapsed(s: string, afterSpace: bool)
    ensures Collapsed(CollapseFrom(s, afterSpace))
    ensures var r := CollapseFrom(s, afterSpace); afterSpace && r != [] ==> r[0] != ' '
  {
    if s != [] {
      var rest := CollapseFrom(s[1..], PyStr.IsSpace(s[0]));
      CollapseFromCollapsed(s[1..], PyStr.IsSpace(s[0]));
      var r := CollapseFrom(s, afterSpace);
      if PyStr.IsSpace(s[0]) && !afterSpace {
        assert r == " " + rest;
        assert forall i :: 1 <= i < |r| ==> r[i] == rest[i - 1];
      } else if !PyStr.IsSpace(s[0]) {
        assert r == [s[0]] + rest;
        assert forall i :: 1 <= i < |r| ==> r[i] == rest[i - 1];
      }
    }
  }

  lemma {:induction false} ReplaceControlsVisible(s: string)
    ensures Visible(ReplaceControls(s)) == Visible(s)
  {
    if s != [] {
      ReplaceControlsVisible(s[1..]);
      var r := ReplaceControls(s);
      assert r[1..] == ReplaceControls(s[1..]);
    }
  }

  lemma {:induction false} CollapseFromVisible(s: string, afterSpace: bool)
    ensures Visible(CollapseFrom(s, afterSpace)) == Visible(s)
  {
    if s != [] {
      CollapseFromVisible(s[1..], PyStr.IsSpace(s[0]));
      var r := CollapseFrom(s, afterSpace);
      var rest := CollapseFrom(s[1..], PyStr.IsSpace(s[0]));
      if PyStr.IsSpace(s[0]) && !afterSpace {
        assert r[0] == ' ' && r[1..] == rest;
      } else if !PyStr.IsSpace(s[0]) {
        assert r == [s[0]] + rest;
        assert r[1..] == rest;
        assert Visible(r) == [s[0]] + Visible(rest);
        assert Visible(s) == [s[0]] + Visible(s[1..]);
      } else {
        assert r == rest;
        assert Visible(s) == Visible(s[1..]);
      }
    }
  }

  /** Text that is already collapsed goes through the cleanup unchanged. */
  lemma {:induction false} CollapsedFixed(s: string, afterSpace: bool)
    requires Collapsed(s) && (afterSpace && s != [] ==> s[0] != ' ')
    ensures CollapseFrom(s, afterSpace) == s && ReplaceControls(s) == s
  {
    if s != [] {
      assert Collapsed(s[1..]) by {
        assert forall i :: 0 <= i < |s[1..]| ==> s[1..][i] == s[i + 1];
      }
      CollapsedFixed(s[1..], s[0] == ' ');
    }
  }

  /**
   * The cleanup leaves single spaces as the only white space, keeps every
   * other character in order, and changes nothing on a second pass.
   */
  lemma CleanRules(text: string)
    ensures Collapsed(Clean(text))
    ensures Visible(Clean(text)) == Visible(text)
    ensures Clean(Clean(text)) == Clean(text)
  {
    var r := Clean(text);
    CollapseFromCollapsed(ReplaceControls(text), false);
    ReplaceControlsVisible(text);
    CollapseFromVisible(ReplaceControls(text), false);
    CollapsedFixed(r, false);
  }
}
