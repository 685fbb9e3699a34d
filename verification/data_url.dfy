/**
 * `dataURLtoBlob`: turns a `data:` URL (the `data:[<mediatype>][;base64],<data>` form of section 3
 * of RFC 2397) into a binary blob. The URL is cut at its commas, the media type is the text
 * between the first `:` and the next `;` of the first piece, and the second piece goes through
 * base64 decoding, which stays abstract: it is the parameter `atob`, absent on a failure.
 */
module DataUrl {
  import opened Wrappers
  import Lists

  /** A byte array tagged with a media type, as `new Blob([u8arr], { type })` builds it. */
  datatype Blob = Blob(bytes: seq<bv8>, mimeType: string)

  /** `String.prototype.split(',')`: the pieces between the commas, in order; there is always one more piece than commas. */
  function Split(s: string): (ps: seq<string>)
    ensures |ps| >= 1
    ensures forall k :: 0 <= k < |ps| ==> ',' !in ps[k]
    decreases |s|
  {
    var i := Lists.FirstIndex(s, ',');
    if i == -1 then [s] else [s[..i]] + Split(s[i + 1..])
  }

  /** `Array.prototype.join(',')`: the pieces with a comma between neighbours. */
  function Join(ps: seq<string>): string
    requires |ps| >= 1
  {
    if |ps| == 1 then ps[0] else ps[0] + "," + Join(ps[1..])
  }

  /** Joining the pieces gives back the URL: splitting loses no character. */
  lemma {:induction false} JoinSplit(s: string)
    ensures Join(Split(s)) == s
    decreases |s|
  {
    var i := Lists.FirstIndex(s, ',');
    if i != -1 {
      var rest := Split(s[i + 1..]);
      JoinSplit(s[i + 1..]);
      assert Split(s) == [s[..i]] + rest;
      assert ([s[..i]] + rest)[1..] == rest;
      assert Join(Split(s)) == s[..i] + "," + Join(rest);
      assert s == s[..i] + "," + s[i + 1..];
    }
  }

  /** Splitting comma-free pieces joined by commas gives the pieces back. */
  lemma {:induction false} SplitJoin(ps: seq<string>)
    requires |ps| >= 1
    requires forall k :: 0 <= k < |ps| ==> ',' !in ps[k]
    ensures Split(Join(ps)) == ps
  {
    if |ps| > 1 {
      SplitJoin(ps[1..]);
      var s := Join(ps);
      var i := |ps[0]|;
      assert s[i] == ',';
      assert s[..i] == ps[0];
      Lists.FirstIndexAt(s, ',', i);
      assert s[i + 1..] == Join(ps[1..]);
    } else {
      assert Lists.FirstIndex(ps[0], ',') == -1;
    }
  }

  /** The characters that `.` does not match in a JavaScript regular expression. */
  predicate LineTerminator(c: char) {
    c == '\n' || c == '\r' || c == '\U{2028}' || c == '\U{2029}'
  }

  /** The text matched by `.*?` : no line terminator. */
  predicate DotMatches(s: string) {
    forall k :: 0 <= k < |s| ==> !LineTerminator(s[k])
  }

  /** From position `k`, the position of the first `;` if no line terminator comes before it. */
  function CloseAt(s: string, k: nat): (j: Option<nat>)
    requires k <= |s|
    ensures j.Some? ==> k <= j.value < |s| && s[j.value] == ';' && ';' !in s[k..j.value] && DotMatches(s[k..j.value])
    ensures j.None? ==> forall m :: k <= m < |s| && s[m] == ';' ==> !DotMatches(s[k..m])
    decreases |s| - k
  {
    if k == |s| then None
    else if s[k] == ';' then Some(k)
    else if LineTerminator(s[k]) then None
    else
      var j := CloseAt(s, k + 1);
      if j.Some? then
        assert s[k..j.value] == [s[k]] + s[k + 1..j.value];
        j
      else
        assert forall m :: k + 1 <= m < |s| ==> s[k..m] == [s[k]] + s[k + 1..m];
        j
  }

  /** The regular expression `/:(.*?);/` searched from position `i`: the first capture, or `None`. */
  function MatchFrom(s: string, i: nat): Option<string>
    requires i <= |s|
    decreases |s| - i
  {
    if i == |s| then None
    else if s[i] == ':' && CloseAt(s, i + 1).Some? then Some(s[i + 1..CloseAt(s, i + 1).value])
    else MatchFrom(s, i + 1)
  }

  /** `header.match(/:(.*?);/)?.[1]`: the media type of the first piece of a data URL. */
  function Mime(header: string): Option<string> {
    MatchFrom(header, 0)
  }

  /**
   * The capture is the text after some `:` up to the next `;`, without line terminators; and
   * there is no capture exactly when no `:` is followed by such a text and a `;`.
   */
  lemma {:induction false} MatchFromSound(s: string, i: nat)
    requires i <= |s|
    ensures var m := MatchFrom(s, i);
            && (m.Some? ==> exists p :: i <= p && p + |m.value| + 1 < |s| && s[p] == ':'
                                        && s[p + 1..p + 1 + |m.value|] == m.value && s[p + 1 + |m.value|] == ';'
                                        && ';' !in m.value && DotMatches(m.value))
            && (m.None? <==> forall p, q :: i <= p < q < |s| && s[p] == ':' && s[q] == ';' ==> !DotMatches(s[p + 1..q]))
    decreases |s| - i
  {
    if i < |s| {
      MatchFromSound(s, i + 1);
      if s[i] == ':' && CloseAt(s, i + 1).Some? {
        var j := CloseAt(s, i + 1).value;
        assert i + 1 + |s[i + 1..j]| == j;
      }
    }
  }

  /** `c.charCodeAt()` stored into a `Uint8Array`: the code modulo 256. */
  function ToUint8(c: char): bv8 {
    ((c as int) % 256) as bv8
  }

  /** The bytes of a decoded binary string, one per character. */
  function Bytes(bstr: string): (bs: seq<bv8>)
    ensures |bs| == |bstr| && forall k :: 0 <= k < |bstr| ==> bs[k] == ToUint8(bstr[k])
  {
    seq(|bstr|, k requires 0 <= k < |bstr| => ToUint8(bstr[k]))
  }

  /**
   * The blob of a data URL. A header without a `:…;` match throws when the match result is
   * indexed; a URL without a comma hands `undefined`, that is the text "undefined", to `atob`;
   * a payload `atob` rejects throws.
   */
  function ToBlob(dataURL: string, atob: string -> Option<string>): (r: Result<Blob>)
    ensures Mime(Split(dataURL)[0]).None? ==> r == Err(NullRead("1"))
    ensures r.Ok? ==> r.value.mimeType == Mime(Split(dataURL)[0]).value
    ensures r.Ok? ==> atob(Payload(dataURL)).Some? &&
                      var bstr := atob(Payload(dataURL)).value;
                      |r.value.bytes| == |bstr| && forall k :: 0 <= k < |bstr| ==> r.value.bytes[k] == ToUint8(bstr[k])
    ensures Mime(Split(dataURL)[0]).Some? ==> (r.Ok? <==> atob(Payload(dataURL)).Some?)
    ensures Mime(Split(dataURL)[0]).Some? && atob(Payload(dataURL)).None? ==> r == Err(InvalidBase64)
  {
    var arr := Split(dataURL);
    var mime := Mime(arr[0]);
    if mime.None? then Err(NullRead("1"))
    else
      var bstr := atob(Payload(dataURL));
      if bstr.None? then Err(InvalidBase64) else Ok(Blob(Bytes(bstr.value), mime.value))
  }

  /** `arr[1]` as `atob` receives it: the second piece, or "undefined" when there is none. */
  function Payload(dataURL: string): string {
    var arr := Split(dataURL);
    if |arr| > 1 then arr[1] else "undefined"
  }

  /** A URL with a comma hands the text between its first and second comma to `atob`. */
  lemma PayloadIsSecondPiece(dataURL: string)
    requires ',' in dataURL
    ensures var i := Lists.FirstIndex(dataURL, ',');
            Payload(dataURL) == Split(dataURL[i + 1..])[0]
  {
  }

  /** `dataURLtoBlob`: the array is filled from the last byte down to the first by `while (n--)`. */
  method DataUrlToBlob(dataURL: string, atob: string -> Option<string>) returns (r: Result<Blob>)
    ensures r == ToBlob(dataURL, atob)
  {
    var arr := Split(dataURL);
    var mime := Mime(arr[0]);
    if mime.None? {
      return Err(NullRead("1"));
    }
    var payload := if |arr| > 1 then arr[1] else "undefined";
    assert payload == Payload(dataURL);
    var decoded := atob(payload);
    if decoded.None? {
      return Err(InvalidBase64);
    }
    var bstr := decoded.value;
    var n := |bstr|;
    var u8arr := new bv8[n](_ => 0);
    while n > 0
      invariant 0 <= n <= |bstr| && u8arr.Length == |bstr|
      invariant forall k :: n <= k < |bstr| ==> u8arr[k] == ToUint8(bstr[k])
    {
      n := n - 1;
      u8arr[n] := ToUint8(bstr[n]);
    }
    assert u8arr[..] == Bytes(bstr);
    r := Ok(Blob(u8arr[..], mime.value));
  }
}
