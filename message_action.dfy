/** resolveLegacyIcon (apps/meteor/client/components/message/content/actions/MessageAction.tsx): legacy icon names to icon names. */
module MessageAction {
  import opened Wrappers
  import Js

  const LegacyPrefix: string := "icon-"

  /** `name.replace(/^icon-/, '')`: one leading `icon-` removed, nothing else touched. */
  function StripPrefix(name: string): (r: string)
    ensures Js.StartsWith(name, LegacyPrefix) ==> LegacyPrefix + r == name
    ensures !Js.StartsWith(name, LegacyPrefix) ==> r == name
  {
    if Js.StartsWith(name, LegacyPrefix) then name[|LegacyPrefix|..] else name
  }

  /** resolveLegacyIcon: `icon-videocam` becomes `video`; `undefined` stays `undefined`. */
  function ResolveLegacyIcon(legacyIcon: Option<string>): (r: Option<string>)
    ensures legacyIcon.None? <==> r.None?
    ensures legacyIcon == Some("icon-videocam") ==> r == Some("video")
    ensures legacyIcon.Some? && legacyIcon.value != "icon-videocam" ==> r == Some(StripPrefix(legacyIcon.value))
  {
    match legacyIcon
    case None => None
    case Some(name) => if name == "icon-videocam" then Some("video") else Some(StripPrefix(name))
  }

  /** Prefixing any name other than `videocam` with `icon-` and resolving it gives the name back. */
  lemma PrefixRoundTrip(name: string)
    requires name != "videocam"
    ensures ResolveLegacyIcon(Some(LegacyPrefix + name)) == Some(name)
  {
    assert (LegacyPrefix + name)[..|LegacyPrefix|] == LegacyPrefix;
    assert (LegacyPrefix + name)[|LegacyPrefix|..] == name;
  }

  /** A name without the prefix comes back unchanged. */
  lemma UnprefixedUnchanged(name: string)
    requires !Js.StartsWith(name, LegacyPrefix)
    ensures ResolveLegacyIcon(Some(name)) == Some(name)
  {
  }

  /** Only one leading prefix is removed: `icon-icon-x` resolves to `icon-x`. */
  lemma OnlyOnePrefix(name: string)
    ensures ResolveLegacyIcon(Some(LegacyPrefix + LegacyPrefix + name)) == Some(LegacyPrefix + name)
  {
    var s := LegacyPrefix + LegacyPrefix + name;
    assert s == LegacyPrefix + (LegacyPrefix + name);
    assert (LegacyPrefix + name)[0] != "videocam"[0];
    PrefixRoundTrip(LegacyPrefix + name);
  }
}
