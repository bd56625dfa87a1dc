/**
 * Rendering the message sent for a chat event: the three placeholders of
 * the user's template are replaced by the platform label, the user name and
 * the message, one `str.replace` after the other.
 */
module Template {
  import opened Text

  const PlatformToken: string := "{platform}"
  const UserToken: string := "{user}"
  const MessageToken: string := "{message}"

  /** The template used when the configured one is empty: a zombie, the platform, the user in bold, the message. */
  const DefaultTemplate: string := "\U{1F9DF} {platform} \U{2014} **{user}**: {message}"

  /** Python's `template or DEFAULT`: an empty template falls back to the default. */
  function Effective(template: string): (t: string)
    ensures t != []
    ensures template == [] ==> t == DefaultTemplate
    ensures template != [] ==> t == template
  {
    if template == [] then DefaultTemplate else template
  }

  /**
   * The content sent for a chat event: `{platform}` is replaced first, then
   * `{user}`, then `{message}`, each pass scanning the output of the
   * previous one, so text a value brings in is scanned by the later passes.
   */
  function Render(template: string, platform: string, user: string, message: string): string {
    Chain(Effective(template), platform, user, message)
  }

  /** The three `str.replace` calls in the order the watcher makes them. */
  function Chain(t: string, platform: string, user: string, message: string): string {
    ReplaceAll(ReplaceAll(ReplaceAll(t, PlatformToken, platform), UserToken, user), MessageToken, message)
  }

  // ---------------------------------------------------------------------
  // The reference: one pass over the template

  /**
   * Substitution in a single left-to-right pass over the template: each
   * placeholder of the template is replaced by its value, and the values are
   * never scanned again.
   */
  function SinglePass(t: string, platform: string, user: string, message: string): string
    decreases |t|
  {
    if t == [] then []
    else if StartsWith(t, PlatformToken) then platform + SinglePass(t[|PlatformToken|..], platform, user, message)
    else if StartsWith(t, UserToken) then user + SinglePass(t[|UserToken|..], platform, user, message)
    else if StartsWith(t, MessageToken) then message + SinglePass(t[|MessageToken|..], platform, user, message)
    else [t[0]] + SinglePass(t[1..], platform, user, message)
  }

  /** A placeholder starts at position `i` of `t`. */
  predicate TokenAt(t: string, i: nat) {
    OccursAt(t, PlatformToken, i) || OccursAt(t, UserToken, i) || OccursAt(t, MessageToken, i)
  }

  /** Every `{` of the template opens one of the three placeholders. */
  predicate WellFormed(t: string) {
    forall i: nat :: i < |t| && t[i] == '{' ==> TokenAt(t, i)
  }

  /** A value that cannot open a placeholder. */
  predicate NoBrace(s: string) { '{' !in s }

  /** What remains of a well-formed template after a prefix is still well formed. */
  lemma WellFormedSuffix(t: string, k: nat)
    requires WellFormed(t) && k <= |t|
    ensures WellFormed(t[k..])
  {
    var s := t[k..];
    forall i: nat | i < |s| && s[i] == '{' ensures TokenAt(s, i) {
      assert t[k + i] == '{';
      assert TokenAt(t, k + i);
      OccursShift(t, k, PlatformToken, i);
      OccursShift(t, k, UserToken, i);
      OccursShift(t, k, MessageToken, i);
    }
  }

  /** An occurrence in `t` after position `k` is an occurrence in `t[k..]`. */
  lemma OccursShift(t: string, k: nat, token: string, i: nat)
    requires k <= |t|
    ensures OccursAt(t, token, k + i) ==> OccursAt(t[k..], token, i)
  {
    if OccursAt(t, token, k + i) {
      assert t[k..][i..i + |token|] == t[k + i..k + i + |token|];
    }
  }

  /** A value without `{` passes through a later replacement untouched. */
  lemma ValueSkips(v: string, rest: string, token: string, value: string)
    requires token != [] && token[0] == '{' && NoBrace(v)
    ensures ReplaceAll(v + rest, token, value) == v + ReplaceAll(rest, token, value)
  {
    if v != [] {
      assert (v + rest)[0] == v[0];
      assert forall j :: 0 <= j < |v[1..]| ==> v[1..][j] == v[j + 1];
    }
    ReplaceAllSkips(v, rest, token, value);
  }

  /** A character other than `{` passes through every replacement untouched. */
  lemma CharSkips(c: char, rest: string, token: string, value: string)
    requires token != [] && token[0] == '{' && c != '{'
    ensures ReplaceAll([c] + rest, token, value) == [c] + ReplaceAll(rest, token, value)
  {
    ValueSkips([c], rest, token, value);
  }

  /** A string that differs from `token` at some position does not start with it. */
  lemma DiffersAt(s: string, token: string, i: nat)
    requires i < |s| && i < |token| && s[i] != token[i]
    ensures !StartsWith(s, token)
  {
    if |token| <= |s| {
      assert s[..|token|][i] == s[i];
    }
  }

  /** A leading `{platform}` becomes the platform label, and later passes leave it alone. */
  lemma ChainPlatform(rest: string, platform: string, user: string, message: string)
    requires NoBrace(platform)
    ensures Chain(PlatformToken + rest, platform, user, message) == platform + Chain(rest, platform, user, message)
  {
    var r1 := ReplaceAll(rest, PlatformToken, platform);
    assert (PlatformToken + rest)[..|PlatformToken|] == PlatformToken;
    assert (PlatformToken + rest)[|PlatformToken|..] == rest;
    ValueSkips(platform, r1, UserToken, user);
    ValueSkips(platform, ReplaceAll(r1, UserToken, user), MessageToken, message);
  }

  /** A leading `{user}` survives the first pass and becomes the user name in the second. */
  lemma ChainUser(rest: string, platform: string, user: string, message: string)
    requires NoBrace(user)
    ensures Chain(UserToken + rest, platform, user, message) == user + Chain(rest, platform, user, message)
  {
    var r1 := ReplaceAll(rest, PlatformToken, platform);
    DiffersAt(UserToken + rest, PlatformToken, 1);
    ReplaceAllSkips(UserToken, rest, PlatformToken, platform);
    assert (UserToken + r1)[..|UserToken|] == UserToken;
    assert (UserToken + r1)[|UserToken|..] == r1;
    ValueSkips(user, ReplaceAll(r1, UserToken, user), MessageToken, message);
  }

  /** A leading `{message}` survives the first two passes and becomes the message in the third. */
  lemma ChainMessage(rest: string, platform: string, user: string, message: string)
    ensures Chain(MessageToken + rest, platform, user, message) == message + Chain(rest, platform, user, message)
  {
    var r1 := ReplaceAll(rest, PlatformToken, platform);
    DiffersAt(MessageToken + rest, PlatformToken, 1);
    ReplaceAllSkips(MessageToken, rest, PlatformToken, platform);
    DiffersAt(MessageToken + r1, UserToken, 1);
    ReplaceAllSkips(MessageToken, r1, UserToken, user);
    var r2 := ReplaceAll(r1, UserToken, user);
    assert (MessageToken + r2)[..|MessageToken|] == MessageToken;
    assert (MessageToken + r2)[|MessageToken|..] == r2;
  }

  /** A leading character other than `{` is copied by all three passes. */
  lemma ChainChar(c: char, rest: string, platform: string, user: string, message: string)
    requires c != '{'
    ensures Chain([c] + rest, platform, user, message) == [c] + Chain(rest, platform, user, message)
  {
    CharSkips(c, rest, PlatformToken, platform);
    var r1 := ReplaceAll(rest, PlatformToken, platform);
    CharSkips(c, r1, UserToken, user);
    CharSkips(c, ReplaceAll(r1, UserToken, user), MessageToken, message);
  }

  /**
   * On a template whose every `{` opens a placeholder, with a platform and a
   * user that contain no `{`, the chained replacement is the single pass.
   * The message may hold anything: `{message}` is replaced last, so nothing
   * rescans it.
   */
  lemma {:induction false} ChainIsSinglePass(t: string, platform: string, user: string, message: string)
    requires WellFormed(t) && NoBrace(platform) && NoBrace(user)
    ensures Chain(t, platform, user, message) == SinglePass(t, platform, user, message)
    decreases |t|
  {
    if t == [] {
    } else if StartsWith(t, PlatformToken) {
      var rest := t[|PlatformToken|..];
      assert t == PlatformToken + rest;
      WellFormedSuffix(t, |PlatformToken|);
      ChainIsSinglePass(rest, platform, user, message);
      ChainPlatform(rest, platform, user, message);
    } else if StartsWith(t, UserToken) {
      var rest := t[|UserToken|..];
      assert t == UserToken + rest;
      WellFormedSuffix(t, |UserToken|);
      ChainIsSinglePass(rest, platform, user, message);
      ChainUser(rest, platform, user, message);
    } else if StartsWith(t, MessageToken) {
      var rest := t[|MessageToken|..];
      assert t == MessageToken + rest;
      WellFormedSuffix(t, |MessageToken|);
      ChainIsSinglePass(rest, platform, user, message);
      ChainMessage(rest, platform, user, message);
    } else {
      var rest := t[1..];
      assert t == [t[0]] + rest;
      assert t[0] == '{' ==> TokenAt(t, 0);
      WellFormedSuffix(t, 1);
      ChainIsSinglePass(rest, platform, user, message);
      ChainChar(t[0], rest, platform, user, message);
    }
  }

  /** Brace-free text at the front is copied by all three passes. */
  lemma ChainPlain(text: string, rest: string, platform: string, user: string, message: string)
    requires NoBrace(text)
    ensures Chain(text + rest, platform, user, message) == text + Chain(rest, platform, user, message)
  {
    ValueSkips(text, rest, PlatformToken, platform);
    var r1 := ReplaceAll(rest, PlatformToken, platform);
    ValueSkips(text, r1, UserToken, user);
    ValueSkips(text, ReplaceAll(r1, UserToken, user), MessageToken, message);
  }

  /** The single pass never produces a `{` when neither the template's text nor the values have one outside placeholders. */
  lemma {:induction false} SinglePassNoBrace(t: string, platform: string, user: string, message: string)
    requires WellFormed(t) && NoBrace(platform) && NoBrace(user) && NoBrace(message)
    ensures NoBrace(SinglePass(t, platform, user, message))
    decreases |t|
  {
    if t == [] {
    } else if StartsWith(t, PlatformToken) {
      WellFormedSuffix(t, |PlatformToken|);
      SinglePassNoBrace(t[|PlatformToken|..], platform, user, message);
    } else if StartsWith(t, UserToken) {
      WellFormedSuffix(t, |UserToken|);
      SinglePassNoBrace(t[|UserToken|..], platform, user, message);
    } else if StartsWith(t, MessageToken) {
      WellFormedSuffix(t, |MessageToken|);
      SinglePassNoBrace(t[|MessageToken|..], platform, user, message);
    } else {
      assert t[0] == '{' ==> TokenAt(t, 0);
      WellFormedSuffix(t, 1);
      SinglePassNoBrace(t[1..], platform, user, message);
    }
  }

  // ---------------------------------------------------------------------
  // What the watcher's rendering guarantees

  /**
   * A non-empty well-formed template, with a platform label and a user name
   * that contain no `{`, is rendered by the single pass, whatever the
   * message holds.
   */
  lemma RenderIsSinglePass(template: string, platform: string, user: string, message: string)
    requires template != [] && WellFormed(template)
    requires NoBrace(platform) && NoBrace(user)
    ensures Render(template, platform, user, message) == SinglePass(template, platform, user, message)
  {
    ChainIsSinglePass(template, platform, user, message);
  }

  /** When the message has no `{` either, no placeholder is left in the content. */
  lemma RenderNoBrace(template: string, platform: string, user: string, message: string)
    requires template != [] && WellFormed(template)
    requires NoBrace(platform) && NoBrace(user) && NoBrace(message)
    ensures NoBrace(Render(template, platform, user, message))
  {
    ChainIsSinglePass(template, platform, user, message);
    SinglePassNoBrace(template, platform, user, message);
  }

  /** A chat message that holds a placeholder is sent as the player typed it. */
  lemma ExampleMessagePlaceholder()
    ensures Render("{platform} - {user}: {message}", "Steam", "Zed", "{user}") == "Steam - Zed: {user}"
  {
    ExampleShape();
    ChainOfShape([], " - ", ": ", "Steam", "Zed", "{user}");
    assert [] + ("Steam" + (" - " + ("Zed" + (": " + ("{user}" + []))))) == "Steam - Zed: {user}";
  }

  /** A template without placeholders is sent as it is. */
  lemma RenderNoTokens(template: string, platform: string, user: string, message: string)
    requires template != []
    requires !Contains(template, PlatformToken) && !Contains(template, UserToken) && !Contains(template, MessageToken)
    ensures Render(template, platform, user, message) == template
  {
    ReplaceAllAbsent(template, PlatformToken, platform);
    ReplaceAllAbsent(template, UserToken, user);
    ReplaceAllAbsent(template, MessageToken, message);
  }

  /** A template shaped `a{platform}b{user}c{message}` with brace-free text renders as `a p b u c m`. */
  lemma ChainOfShape(a: string, b: string, c: string, platform: string, user: string, message: string)
    requires NoBrace(a) && NoBrace(b) && NoBrace(c) && NoBrace(platform) && NoBrace(user)
    ensures Chain(a + (PlatformToken + (b + (UserToken + (c + (MessageToken + []))))), platform, user, message)
         == a + (platform + (b + (user + (c + (message + [])))))
  {
    ChainPlain(a, PlatformToken + (b + (UserToken + (c + (MessageToken + [])))), platform, user, message);
    ChainPlatform(b + (UserToken + (c + (MessageToken + []))), platform, user, message);
    ChainPlain(b, UserToken + (c + (MessageToken + [])), platform, user, message);
    ChainUser(c + (MessageToken + []), platform, user, message);
    ChainPlain(c, MessageToken + [], platform, user, message);
    ChainMessage([], platform, user, message);
  }

  /** The default template is of that shape. */
  lemma DefaultShape()
    ensures DefaultTemplate == "\U{1F9DF} " + (PlatformToken + (" \U{2014} **" + (UserToken + ("**: " + (MessageToken + [])))))
    ensures NoBrace("\U{1F9DF} ") && NoBrace(" \U{2014} **") && NoBrace("**: ")
  {
  }

  /**
   * An empty template renders as the default one: the zombie, the platform,
   * a dash, the user in bold and the message, for a platform and a user
   * without `{`.
   */
  lemma RenderEmptyTemplate(platform: string, user: string, message: string)
    requires NoBrace(platform) && NoBrace(user)
    ensures Render("", platform, user, message)
         == "\U{1F9DF} " + platform + " \U{2014} **" + user + "**: " + message
  {
    DefaultShape();
    ChainOfShape("\U{1F9DF} ", " \U{2014} **", "**: ", platform, user, message);
    assert message + [] == message;
  }

  /** The example template of the configuration, split at its placeholders. */
  lemma ExampleShape()
    ensures "{platform} - {user}: {message}" == [] + (PlatformToken + (" - " + (UserToken + (": " + (MessageToken + [])))))
    ensures NoBrace([]) && NoBrace(" - ") && NoBrace(": ") && NoBrace("Steam") && NoBrace("Zed")
  {
  }

  /** The template `{platform} - {user}: {message}` for a Steam player. */
  lemma ExampleRender()
    ensures Render("{platform} - {user}: {message}", "Steam", "Zed", "hello world") == "Steam - Zed: hello world"
  {
    ExampleShape();
    ChainOfShape([], " - ", ": ", "Steam", "Zed", "hello world");
    assert [] + ("Steam" + (" - " + ("Zed" + (": " + ("hello world" + []))))) == "Steam - Zed: hello world";
  }

  /** A leading token is replaced by its value. */
  lemma ReplaceLeading(token: string, rest: string, value: string)
    requires token != []
    ensures ReplaceAll(token + rest, token, value) == value + ReplaceAll(rest, token, value)
  {
    assert (token + rest)[..|token|] == token;
    assert (token + rest)[|token|..] == rest;
  }

  /** A user name that is the `{message}` placeholder is replaced by the message. */
  lemma CascadeUser(platform: string, message: string)
    ensures Chain(UserToken, platform, MessageToken, message) == message
    ensures SinglePass(UserToken, platform, MessageToken, message) == MessageToken
  {
    assert UserToken + [] == UserToken;
    assert MessageToken + [] == MessageToken;
    DiffersAt(UserToken, PlatformToken, 1);
    ReplaceAllSkips(UserToken, [], PlatformToken, platform);
    ReplaceLeading(UserToken, [], MessageToken);
    ReplaceLeading(MessageToken, [], message);
    assert UserToken[|UserToken|..] == [];
  }

  /**
   * The chained passes rescan inserted text: a user name that is itself a
   * placeholder is replaced by the message, where one pass keeps it.
   */
  lemma CascadeThroughValue()
    ensures Render("{user}", "Steam", "{message}", "hi") == "hi"
    ensures SinglePass("{user}", "Steam", "{message}", "hi") == "{message}"
  {
    CascadeUser("Steam", "hi");
  }

  /** `{u{platform}r}` with the label `se`: the first pass builds a `{user}` placeholder. */
  lemma CascadeBuilt(user: string, message: string)
    requires NoBrace(user)
    ensures Chain("{u" + PlatformToken + "r}", "se", user, message) == user
    ensures SinglePass("{u" + PlatformToken + "r}", "se", user, message) == UserToken
  {
    var t := "{u" + PlatformToken + "r}";
    assert t == "{u" + (PlatformToken + "r}");
    DiffersAt(t, PlatformToken, 1);
    ReplaceAllSkips("{u", PlatformToken + "r}", PlatformToken, "se");
    ReplaceLeading(PlatformToken, "r}", "se");
    assert "r}" + [] == "r}";
    ReplaceAllSkips("r}", [], PlatformToken, "se");
    assert "{u" + ("se" + "r}") == UserToken + [];
    ReplaceLeading(UserToken, [], user);
    assert user + [] == user;
    ValueSkips(user, [], MessageToken, message);
    assert ReplaceAll([], MessageToken, message) == [];
    SinglePassBuilt(user, message);
  }

  /** The single pass copies the `{` that opens no placeholder and replaces only `{platform}`. */
  lemma SinglePassBuilt(user: string, message: string)
    ensures SinglePass("{u" + PlatformToken + "r}", "se", user, message) == UserToken
  {
    var t := "{u" + PlatformToken + "r}";
    var t1 := "u" + PlatformToken + "r}";
    var t2 := PlatformToken + "r}";
    assert t[1..] == t1 && t1[1..] == t2 && t2[|PlatformToken|..] == "r}";
    DiffersAt(t, PlatformToken, 1);
    DiffersAt(t, UserToken, 2);
    DiffersAt(t, MessageToken, 1);
    assert SinglePass(t, "se", user, message) == "{" + SinglePass(t1, "se", user, message);
    assert t1[0] != '{';
    assert SinglePass(t1, "se", user, message) == "u" + SinglePass(t2, "se", user, message);
    assert SinglePass(t2, "se", user, message) == "se" + SinglePass("r}", "se", user, message);
    assert SinglePass("r}", "se", user, message) == "r}";
  }

  /**
   * Values free of placeholders are not enough for the two to agree: a
   * `{` of the template that opens no placeholder can become one once the
   * platform label is inserted.
   */
  lemma CascadeThroughTemplate()
    ensures Render("{u{platform}r}", "se", "Zed", "x") == "Zed"
    ensures SinglePass("{u{platform}r}", "se", "Zed", "x") == "{user}"
  {
    assert "{u{platform}r}" == "{u" + PlatformToken + "r}";
    CascadeBuilt("Zed", "x");
  }
}
