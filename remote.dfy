/**
 * The remote that a mirror is pushed to: its name, derived from the
 * destination connection string (`user@host:path`), and the text of the
 * legacy `$GIT_DIR/remotes/<name>` file that registers it.
 */
module Remote {
  import opened Wrappers
  import opened GoStrings

  /**
   * `strings.Split(strings.Split(destination, "@")[1], ":")[0]`. The index 1
   * exists only when the destination holds an `@`; without one the Go program
   * panics with an index out of range, which is `None` here.
   */
  function RemoteName(destination: string): (name: Option<string>)
    ensures name.Some? <==> '@' in destination
    ensures name.Some? ==> '@' !in name.value && ':' !in name.value
  {
    var nameAt := Split(destination, '@');
    CountPositive(destination, '@');
    if |nameAt| < 2 then None
    else
      var name := Split(nameAt[1], ':')[0];
      FirstField(nameAt[1], ':');
      assert forall i :: 0 <= i < |name| ==> name[i] == nameAt[1][i];
      Some(name)
  }

  /**
   * The derived name is the host part of the destination: the text after the
   * first `@`, up to the next `@` or `:` (or the end).
   */
  lemma RemoteNameIsHost(destination: string)
    requires '@' in destination
    ensures RemoteName(destination) ==
      Some(TakeUntil(destination[IndexOf(destination, '@') + 1..], {'@', ':'}))
  {
    var after := destination[IndexOf(destination, '@') + 1..];
    SecondField(destination, '@');
    FirstField(TakeUntil(after, {'@'}), ':');
    TakeUntilTwice(after, '@', ':');
  }

  const UrlPrefix := "URL: "
  /** Push every branch, forced, to the branch of the same name. */
  const PushHeads := "Push: +refs/heads/*:refs/heads/*"
  /** Push every tag, forced, to the tag of the same name. */
  const PushTags := "Push: +refs/tags/*:refs/tags/*"

  /** The text of the remote file: the destination URL and the two push refspecs. */
  function RemoteContent(destination: string): string
  {
    UrlPrefix + destination + "\n" + PushHeads + "\n" + PushTags + "\n"
  }

  /** The fixed parts of the remote file are single lines. */
  lemma FixedPartsAreLines()
    ensures '\n' !in UrlPrefix && '\n' !in PushHeads && '\n' !in PushTags
  {
  }

  /**
   * Read line by line, the remote file names the destination on its first
   * line and pushes exactly the branches and the tags, nothing else.
   */
  lemma RemoteContentLines(destination: string)
    requires '\n' !in destination
    ensures Split(RemoteContent(destination), '\n') ==
      [UrlPrefix + destination, PushHeads, PushTags, ""]
  {
    FixedPartsAreLines();
    var url := UrlPrefix + destination;
    var tags := PushTags + "\n";
    var heads := PushHeads + "\n" + tags;
    assert Split(tags, '\n') == [PushTags, ""] by {
      assert tags == PushTags + ['\n'] + "";
      SplitAtFirstSep(PushTags, '\n', "");
    }
    assert Split(heads, '\n') == [PushHeads, PushTags, ""] by {
      SplitAtFirstSep(PushHeads, '\n', tags);
    }
    assert Split(url + ['\n'] + heads, '\n') == [url] + Split(heads, '\n') by {
      SplitAtFirstSep(url, '\n', heads);
    }
    assert RemoteContent(destination) == url + ['\n'] + heads;
  }

  /**
   * For an scp-style destination `user@host:path` the remote is named after
   * the host, whatever the path holds.
   */
  lemma RemoteNameOfScpStyle(user: string, host: string, path: string)
    requires '@' !in user && '@' !in host && ':' !in host
    ensures RemoteName(user + "@" + host + ":" + path) == Some(host)
  {
    var d := user + "@" + host + ":" + path;
    var k := IndexOf(d, '@');
    assert d[|user|] == '@' && d[..|user|] == user;
    assert k == |user|;
    var after := d[k + 1..];
    assert after == host + ":" + path;
    var name := TakeUntil(after, {'@', ':'});
    assert name == host by {
      assert after[|host|] == ':';
      assert name == after[..|host|];
    }
    RemoteNameIsHost(d);
  }

  /** The example connection string `git@bb:org/a` is pushed to the remote `bb`. */
  lemma ExampleRemoteName()
    ensures RemoteName("git@bb:org/a") == Some("bb")
  {
    RemoteNameOfScpStyle("git", "bb", "org/a");
    assert "git" + "@" + "bb" + ":" + "org/a" == "git@bb:org/a";
  }
}
