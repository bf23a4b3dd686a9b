/** TRestDetectorReadoutModule: a rectangle of the readout plane, placed by
    its origin and rotation, holding the readout channels by value together
    with the range of DAQ IDs they use. Rotations are given by their cosine
    and sine. */
module ReadoutModules {
  import opened SeqUtil
  import opened Geometry

  /** A readout pixel as given in the readout definition. */
  datatype Pixel = Pixel(origin: Vec2, size: Vec2, rotation: real, triangle: bool)

  /** A readout channel: its readout ID, its DAQ ID and its pixels. */
  datatype Channel = Channel(channelId: int, daqId: int, pixels: seq<Pixel>)

  /** Outcome of an operation that may end the program with exit(). */
  datatype Status = Done | Exit(code: int)

  /** The DAQ IDs of the channels, in channel order. */
  function DaqIds(chs: seq<Channel>): (r: seq<int>)
    ensures |r| == |chs| && forall i :: 0 <= i < |chs| ==> r[i] == chs[i].daqId
  {
    seq(|chs|, i requires 0 <= i < |chs| => chs[i].daqId)
  }

  /** C++ `%` on int: the remainder takes the sign of the dividend. */
  function CppRem(n: int, d: int): (r: int)
    requires d > 0
    ensures n >= 0 ==> r == n % d
    ensures -d < r < d && (r == 0 || (r < 0 <==> n < 0))
  {
    if n >= 0 then n % d else -((-n) % d)
  }

  /** Decoding is switched off by the "Not defined" and empty file names and by
      an earlier failure to find a decoding file. */
  predicate DecodingRequested(file: string, decodingError: bool) {
    file != "Not defined" && file != "" && !decodingError
  }

  /** The (readout, daq) pairs taken from the rows (daq, readout) of a decoding
      file: a row with a negative readout ID is a blank DAQ channel and is
      skipped, and every DAQ ID is offset by the first DAQ channel. */
  function DecodedPairs(rows: seq<(int, int)>, first: int): (r: seq<(int, int)>)
    ensures |r| <= |rows|
    ensures forall i :: 0 <= i < |r| ==> r[i].0 >= 0
  {
    if rows == [] then []
    else
      var prev := DecodedPairs(rows[..|rows| - 1], first);
      var last := rows[|rows| - 1];
      if last.1 >= 0 then prev + [(last.1, last.0 + first)] else prev
  }

  /** Exactly the rows with a non-negative readout ID give a pair. */
  lemma {:induction false} DecodedPairsMembers(rows: seq<(int, int)>, first: int)
    ensures forall p :: p in DecodedPairs(rows, first) ==> p.0 >= 0 && (p.1 - first, p.0) in rows
    ensures forall q :: q in rows && q.1 >= 0 ==> (q.1, q.0 + first) in DecodedPairs(rows, first)
  {
    if rows != [] {
      var init, last := rows[..|rows| - 1], rows[|rows| - 1];
      DecodedPairsMembers(init, first);
      assert rows == init + [last];
    }
  }

  /** The pairs used without a decoding file: channel ch is read by DAQ
      channel ch + first. */
  function DefaultPairs(n: nat, first: int): (r: seq<(int, int)>)
    ensures |r| == n && forall ch :: 0 <= ch < n ==> r[ch] == (ch, ch + first)
  {
    seq(n, ch requires 0 <= ch < n => (ch, ch + first))
  }

  /** The channels after the assignment loop has gone through the pairs in
      order; a pair whose readout ID names no channel is skipped. */
  function Assign(chs: seq<Channel>, pairs: seq<(int, int)>): (r: seq<Channel>)
    ensures |r| == |chs|
  {
    if pairs == [] then chs
    else
      var prev := Assign(chs, pairs[..|pairs| - 1]);
      var p := pairs[|pairs| - 1];
      if 0 <= p.0 < |prev| then prev[p.0 := prev[p.0].(daqId := p.1, channelId := p.0)] else prev
  }

  /** Without decoding, channel ch ends with DAQ ID ch + first and readout ID
      ch; its pixels are untouched. */
  lemma DefaultDecoding(chs: seq<Channel>, first: int)
    ensures forall ch :: 0 <= ch < |chs| ==>
              Assign(chs, DefaultPairs(|chs|, first))[ch] == chs[ch].(daqId := ch + first, channelId := ch)
  {
    DefaultDecodingPrefix(chs, first, |chs|);
    assert DefaultPairs(|chs|, first)[..|chs|] == DefaultPairs(|chs|, first);
  }

  lemma {:induction false} DefaultDecodingPrefix(chs: seq<Channel>, first: int, k: nat)
    requires k <= |chs|
    ensures forall ch :: 0 <= ch < k ==>
              Assign(chs, DefaultPairs(|chs|, first)[..k])[ch] == chs[ch].(daqId := ch + first, channelId := ch)
    ensures forall ch :: k <= ch < |chs| ==> Assign(chs, DefaultPairs(|chs|, first)[..k])[ch] == chs[ch]
  {
    if k > 0 {
      var pairs := DefaultPairs(|chs|, first);
      DefaultDecodingPrefix(chs, first, k - 1);
      assert pairs[..k][..k - 1] == pairs[..k - 1];
    }
  }

  /** With pairs whose readout IDs are distinct, each pair naming a channel
      sets that channel's DAQ ID and readout ID. */
  lemma {:induction false} AssignSetsEachPair(chs: seq<Channel>, pairs: seq<(int, int)>)
    requires forall i, j :: 0 <= i < j < |pairs| ==> pairs[i].0 != pairs[j].0
    ensures forall i :: 0 <= i < |pairs| && 0 <= pairs[i].0 < |chs| ==>
              Assign(chs, pairs)[pairs[i].0].daqId == pairs[i].1
              && Assign(chs, pairs)[pairs[i].0].channelId == pairs[i].0
    ensures forall ch :: 0 <= ch < |chs| && (forall i :: 0 <= i < |pairs| ==> pairs[i].0 != ch) ==>
              Assign(chs, pairs)[ch] == chs[ch]
  {
    if pairs != [] {
      var init := pairs[..|pairs| - 1];
      AssignSetsEachPair(chs, init);
      assert forall i :: 0 <= i < |init| ==> init[i] == pairs[i];
    }
  }

  class ReadoutModule {
    var moduleId: int
    var name: string
    var origin: Vec2
    var size: Vec2
    var rotation: Rotation
    var tolerance: real
    var firstDaqChannel: int
    var decoding: bool
    var decodingFile: string
    var minDaqId: int
    var maxDaqId: int
    var channels: seq<Channel>

    constructor ()
      ensures channels == [] && minDaqId == -1 && maxDaqId == -1 && firstDaqChannel == 0
      ensures !decoding && decodingFile == "" && moduleId == -1 && tolerance == 1.0 / 1000.0
    {
      moduleId := -1;
      name := "";
      origin := Vec2(0.0, 0.0);
      size := Vec2(0.0, 0.0);
      rotation := Rotation(1.0, 0.0);
      tolerance := 1.0 / 1000.0;
      firstDaqChannel := 0;
      decoding := false;
      decodingFile := "";
      minDaqId, maxDaqId := -1, -1;
      channels := [];
    }

    /** The copy made when a module definition is pushed into a vector. */
    constructor Copy(m: ReadoutModule)
      ensures moduleId == m.moduleId && name == m.name && origin == m.origin && size == m.size
      ensures rotation == m.rotation && tolerance == m.tolerance && firstDaqChannel == m.firstDaqChannel
      ensures decoding == m.decoding && decodingFile == m.decodingFile
      ensures minDaqId == m.minDaqId && maxDaqId == m.maxDaqId && channels == m.channels
      ensures Mirrors(m)
    {
      moduleId := m.moduleId;
      name := m.name;
      origin := m.origin;
      size := m.size;
      rotation := m.rotation;
      tolerance := m.tolerance;
      firstDaqChannel := m.firstDaqChannel;
      decoding := m.decoding;
      decodingFile := m.decodingFile;
      minDaqId, maxDaqId := m.minDaqId, m.maxDaqId;
      channels := m.channels;
    }

    /** Every field equals m's: what a copy of m holds. */
    predicate Mirrors(m: ReadoutModule)
      reads this, m
    {
      moduleId == m.moduleId && name == m.name && origin == m.origin && size == m.size
      && rotation == m.rotation && tolerance == m.tolerance && firstDaqChannel == m.firstDaqChannel
      && decoding == m.decoding && decodingFile == m.decodingFile
      && minDaqId == m.minDaqId && maxDaqId == m.maxDaqId && channels == m.channels
    }

    method SetModuleID(id: int)
      modifies this`moduleId
      ensures moduleId == id && channels == old(channels) && minDaqId == old(minDaqId) && maxDaqId == old(maxDaqId)
      ensures origin == old(origin) && size == old(size) && rotation == old(rotation) && name == old(name)
    {
      moduleId := id;
    }

    method SetSize(sx: real, sy: real)
      modifies this`size
      ensures size == Vec2(sx, sy) && origin == old(origin) && rotation == old(rotation)
      ensures moduleId == old(moduleId) && channels == old(channels) && name == old(name)
      ensures minDaqId == old(minDaqId) && maxDaqId == old(maxDaqId)
    {
      size := Vec2(sx, sy);
    }

    method SetOrigin(x: real, y: real)
      modifies this`origin
      ensures origin == Vec2(x, y) && size == old(size) && rotation == old(rotation)
      ensures moduleId == old(moduleId) && channels == old(channels) && name == old(name)
      ensures minDaqId == old(minDaqId) && maxDaqId == old(maxDaqId)
    {
      origin := Vec2(x, y);
    }

    method SetRotation(r: Rotation)
      modifies this`rotation
      ensures rotation == r && origin == old(origin) && size == old(size)
      ensures moduleId == old(moduleId) && channels == old(channels) && name == old(name)
      ensures minDaqId == old(minDaqId) && maxDaqId == old(maxDaqId)
    {
      rotation := r;
    }

    method SetName(n: string)
      modifies this`name
      ensures name == n && moduleId == old(moduleId) && channels == old(channels)
      ensures origin == old(origin) && size == old(size) && rotation == old(rotation)
      ensures minDaqId == old(minDaqId) && maxDaqId == old(maxDaqId)
    {
      name := n;
    }

    method SetTolerance(t: real)
      modifies this`tolerance
      ensures tolerance == t && moduleId == old(moduleId) && channels == old(channels) && name == old(name)
      ensures origin == old(origin) && size == old(size) && rotation == old(rotation)
      ensures minDaqId == old(minDaqId) && maxDaqId == old(maxDaqId)
    {
      tolerance := t;
    }

    function GetNumberOfChannels(): nat
      reads this
    {
      |channels|
    }

    /** The channel at index n, or None past the last channel. */
    function GetChannel(n: int): (r: Option<Channel>)
      reads this
      requires 0 <= n
      ensures r.None? <==> n >= |channels|
      ensures r.Some? ==> r.value == channels[n]
    {
      if n >= |channels| then None else Some(channels[n])
    }

    /** The first channel index read by the DAQ channel, or -1. */
    method DaqToReadoutChannel(daqChannel: int) returns (index: int)
      ensures index == IndexOf(DaqIds(channels), daqChannel)
    {
      ghost var ids := DaqIds(channels);
      var n := 0;
      while n < |channels|
        invariant 0 <= n <= |channels|
        invariant forall k :: 0 <= k < n ==> ids[k] != daqChannel
      {
        if channels[n].daqId == daqChannel {
          return n;
        }
        n := n + 1;
      }
      return -1;
    }

    predicate IsDaqIdInside(daqId: int)
      reads this
    {
      minDaqId <= daqId <= maxDaqId
    }

    /** The DAQ ID range becomes the smallest and largest DAQ ID of the
        channels; channel 0 is read first, so there must be one. */
    method SetMinMaxDaqIDs()
      requires |channels| > 0
      modifies this`minDaqId, this`maxDaqId
      ensures channels == old(channels) && moduleId == old(moduleId) && name == old(name)
      ensures origin == old(origin) && size == old(size) && rotation == old(rotation)
      ensures decoding == old(decoding) && decodingFile == old(decodingFile)
      ensures firstDaqChannel == old(firstDaqChannel)
      ensures minDaqId in DaqIds(channels) && maxDaqId in DaqIds(channels)
      ensures forall ch :: 0 <= ch < |channels| ==> IsDaqIdInside(channels[ch].daqId)
    {
      var maxID := channels[0].daqId;
      var minID := channels[0].daqId;
      var ch := 0;
      while ch < |channels|
        invariant 0 <= ch <= |channels|
        invariant minID in DaqIds(channels) && maxID in DaqIds(channels)
        invariant forall k :: 0 <= k < ch ==> minID <= channels[k].daqId <= maxID
      {
        var daqID := channels[ch].daqId;
        if daqID > maxID {
          maxID := daqID;
        }
        if daqID < minID {
          minID := daqID;
        }
        ch := ch + 1;
      }
      minDaqId, maxDaqId := minID, maxID;
    }

    /** Sets the decoding file and assigns DAQ IDs and readout IDs to the
        channels. The file's existence, its rows (daq, readout) and the global
        decoding-error flag are parameters; the flag's new value is returned. */
    method SetDecodingFile(file: string, fileExists: bool, rows: seq<(int, int)>, decodingError: bool)
      returns (status: Status, decodingErrorAfter: bool)
      requires |channels| > 0
      modifies this`decodingFile, this`decoding, this`channels, this`minDaqId, this`maxDaqId
      ensures tolerance == old(tolerance)
      ensures decodingFile == file && moduleId == old(moduleId) && firstDaqChannel == old(firstDaqChannel)
      ensures origin == old(origin) && size == old(size) && rotation == old(rotation) && name == old(name)
      ensures decoding <==> DecodingRequested(file, decodingError) && fileExists
      ensures decodingErrorAfter <==> decodingError || (DecodingRequested(file, decodingError) && !fileExists)
      ensures var pairs := DecodedPairs(rows, firstDaqChannel);
              status == (if decoding && |old(channels)| != |pairs| then Exit(1) else Done)
      ensures status == Done ==>
                channels == Assign(old(channels),
                                   (if decoding then DecodedPairs(rows, firstDaqChannel)
                                    else DefaultPairs(|old(channels)|, firstDaqChannel))[..|old(channels)|])
                && forall ch :: 0 <= ch < |channels| ==> IsDaqIdInside(channels[ch].daqId)
      ensures status == Done ==> minDaqId in DaqIds(channels) && maxDaqId in DaqIds(channels)
    {
      decodingFile := file;
      decoding := DecodingRequested(file, decodingError);
      decodingErrorAfter := decodingError;
      if decoding && !fileExists {
        decoding := false;
        decodingErrorAfter := true;
      }
      var rdChannel: seq<(int, int)> := [];
      if decoding && fileExists {
        rdChannel := ReadDecoding(rows, firstDaqChannel);
      }
      if decoding && |channels| != |rdChannel| {
        return Exit(1), decodingErrorAfter;
      }
      if !decoding {
        rdChannel := DefaultPairs(|channels|, firstDaqChannel);
      }
      AssignChannels(rdChannel);
      SetMinMaxDaqIDs();
      status := Done;
    }

    /** The fscanf loop over the decoding rows, already read into a list. */
    static method ReadDecoding(rows: seq<(int, int)>, first: int) returns (rdChannel: seq<(int, int)>)
      ensures rdChannel == DecodedPairs(rows, first)
    {
      rdChannel := [];
      var i := 0;
      while i < |rows|
        invariant 0 <= i <= |rows|
        invariant rdChannel == DecodedPairs(rows[..i], first)
      {
        assert rows[..i + 1][..i] == rows[..i];
        var (daq, readout) := rows[i];
        if readout >= 0 {
          rdChannel := rdChannel + [(readout, daq + first)];
        }
        i := i + 1;
      }
      assert rows[..i] == rows;
    }

    /** The loop of SetDecodingFile over the channels: pair ch gives channel
        pair.0 its DAQ ID and readout ID, unless no such channel exists. In the
        source the default pairs are pushed inside this loop, one per step,
        just before they are read. */
    method AssignChannels(pairs: seq<(int, int)>)
      requires |pairs| >= |channels|
      requires forall i :: 0 <= i < |pairs| ==> pairs[i].0 >= 0
      modifies this`channels
      ensures channels == Assign(old(channels), pairs[..|old(channels)|])
      ensures moduleId == old(moduleId) && name == old(name) && origin == old(origin) && size == old(size)
      ensures rotation == old(rotation) && decoding == old(decoding) && decodingFile == old(decodingFile)
      ensures firstDaqChannel == old(firstDaqChannel)
    {
      ghost var chs := channels;
      var ch, n := 0, |channels|;
      while ch < n
        invariant 0 <= ch <= n == |chs| == |channels|
        invariant channels == Assign(chs, pairs[..ch])
        invariant moduleId == old(moduleId) && name == old(name) && origin == old(origin) && size == old(size)
        invariant rotation == old(rotation) && decoding == old(decoding) && decodingFile == old(decodingFile)
        invariant firstDaqChannel == old(firstDaqChannel)
      {
        assert pairs[..ch + 1][..ch] == pairs[..ch];
        var (readout, daq) := pairs[ch];
        if readout < |channels| {
          channels := channels[readout := channels[readout].(daqId := daq, channelId := readout)];
        }
        ch := ch + 1;
      }
    }

    /** Appends the channel; a pixel reaching outside the module only draws a
        warning. */
    method AddChannel(channel: Channel)
      modifies this`channels
      ensures channels == old(channels) + [channel] && moduleId == old(moduleId) && name == old(name)
      ensures origin == old(origin) && size == old(size) && rotation == old(rotation)
      ensures minDaqId == old(minDaqId) && maxDaqId == old(maxDaqId) && tolerance == old(tolerance)
    {
      channels := channels + [channel];
    }

    /** Corner n of the module in plane coordinates: the origin, then the
        rotated corners (sx, 0), (sx, sy) and (0, sy) in turn. A negative n
        whose remainder is not 0 falls through every branch and gives (0, 0). */
    function GetVertex(n: int): (v: Vec2)
      reads this
      ensures CppRem(n, 4) == 0 ==> v == origin
      ensures CppRem(n, 4) < 0 ==> v == Vec2(0.0, 0.0)
      ensures n >= 0 ==> v == Corner(origin, size, rotation, n % 4)
    {
      var r := CppRem(n, 4);
      if r == 0 then origin
      else if r == 1 then Add2(Rotate(Vec2(size.x, 0.0), rotation), origin)
      else if r == 2 then Add2(Rotate(Vec2(size.x, size.y), rotation), origin)
      else if r == 3 then Add2(Rotate(Vec2(0.0, size.y), rotation), origin)
      else Vec2(0.0, 0.0)
    }

    /** A point given in plane coordinates, seen from the module's origin and
        axes. */
    function ToModuleCoordinates(p: Vec2): Vec2
      reads this
    {
      RotateBack(Vec2(p.x - origin.x, p.y - origin.y), rotation)
    }

    predicate IsInside(p: Vec2)
      reads this
    {
      var q := ToModuleCoordinates(p);
      0.0 <= q.x <= size.x && 0.0 <= q.y <= size.y
    }
  }

  /** Corner k (0 to 3) of the rectangle with the given origin, size and rotation. */
  function Corner(origin: Vec2, size: Vec2, rot: Rotation, k: int): Vec2 {
    var local := if k == 1 then Vec2(size.x, 0.0) else if k == 2 then size
                 else if k == 3 then Vec2(0.0, size.y) else Vec2(0.0, 0.0);
    if k == 0 then origin else Add2(Rotate(local, rot), origin)
  }

  /** The vertex list repeats every four indices. */
  lemma VertexPeriodic(m: ReadoutModule, n: nat)
    ensures m.GetVertex(n + 4) == m.GetVertex(n)
  {
  }

  /** For a proper rotation and a non-negative size, every vertex of the module
      is inside the module. */
  lemma VerticesInside(m: ReadoutModule, n: nat)
    requires IsUnit(m.rotation) && m.size.x >= 0.0 && m.size.y >= 0.0
    ensures m.IsInside(m.GetVertex(n))
  {
    var k := n % 4;
    var local := if k == 1 then Vec2(m.size.x, 0.0) else if k == 2 then m.size
                 else if k == 3 then Vec2(0.0, m.size.y) else Vec2(0.0, 0.0);
    if k != 0 {
      RotateBackUndoesRotate(local, m.rotation);
      assert m.ToModuleCoordinates(m.GetVertex(n)) == RotateBack(Rotate(local, m.rotation), m.rotation);
    } else {
      assert m.ToModuleCoordinates(m.GetVertex(n)) == RotateBack(Vec2(0.0, 0.0), m.rotation);
    }
  }
}
