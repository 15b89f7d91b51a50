/** Fully qualified channel ids, `channel@component`, as the integration's
    entities name the channels they show. */
module Util {

  import opened Wrappers
  import opened Text
  import opened Model

  /** How often `c` occurs in `s`. */
  function Occurrences(s: string, c: char): nat
  {
    multiset(s)[c]
  }

  /** `channel_parts_to_fqid`: the channel id, `@`, the component id. */
  function ChannelPartsToFqid(componentId: string, channelId: string): (fqid: string)
    ensures StartsWith(fqid, channelId) && EndsWith(fqid, componentId)
    ensures Occurrences(fqid, '@') == Occurrences(channelId, '@') + Occurrences(componentId, '@') + 1
  {
    var fqid := channelId + "@" + componentId;
    assert fqid == channelId + ("@" + componentId);
    StartsWithAppend(channelId, "@" + componentId);
    EndsWithAppend(channelId + "@", componentId);
    assert multiset(fqid) == multiset(channelId) + multiset("@") + multiset(componentId);
    fqid
  }

  /** `str.split` cuts a string into one more piece than it has separators,
      and no piece holds a separator. */
  lemma {:induction false} SplitPieces(s: string, sep: char)
    ensures |Split(s, sep)| == Occurrences(s, sep) + 1
    ensures forall i :: 0 <= i < |Split(s, sep)| ==> sep !in Split(s, sep)[i]
    decreases |s|
  {
    if |s| > 0 {
      SplitPieces(s[1..], sep);
      assert s == [s[0]] + s[1..];
      assert multiset(s) == multiset([s[0]]) + multiset(s[1..]);
      var rest := Split(s[1..], sep);
      if s[0] != sep {
        var parts := Split(s, sep);
        assert parts[0] == [s[0]] + rest[0];
        forall i | 1 <= i < |parts| ensures sep !in parts[i] {
          assert parts[i] == rest[i];
        }
      }
    }
  }

  /** `channel_fqid_to_parts`: `(component_id, channel_id)`, the part after
      the `@` first; a string without exactly one `@` is a `ValueError`. */
  function ChannelFqidToParts(fqid: string): (r: Result<(string, string), Error>)
    ensures r.Ok? <==> Occurrences(fqid, '@') == 1
    ensures r.Err? ==> r.error == Error(ValueError, "Invalid channel fqid: " + fqid)
    ensures r.Ok? ==> '@' !in r.value.0 && '@' !in r.value.1
  {
    var split := Split(fqid, '@');
    SplitPieces(fqid, '@');
    if |split| != 2 then Err(Error(ValueError, "Invalid channel fqid: " + fqid))
    else Ok((split[1], split[0]))
  }

  /** Splitting a joined fqid gives back its parts, provided neither part
      holds an `@`. */
  lemma FqidRoundTrip(componentId: string, channelId: string)
    requires '@' !in componentId && '@' !in channelId
    ensures ChannelFqidToParts(ChannelPartsToFqid(componentId, channelId)) == Ok((componentId, channelId))
  {
    SplitAt(channelId, componentId, '@');
    SplitWithoutSep(componentId, '@');
  }

  /** Joining the parts of a valid fqid gives back the fqid. */
  lemma PartsRoundTrip(fqid: string)
    requires ChannelFqidToParts(fqid).Ok?
    ensures
      var (componentId, channelId) := ChannelFqidToParts(fqid).value;
      ChannelPartsToFqid(componentId, channelId) == fqid
  {
    var split := Split(fqid, '@');
    SplitPieces(fqid, '@');
    SplitJoin(fqid, '@');
    assert split[1..] == [split[1]];
  }
}
