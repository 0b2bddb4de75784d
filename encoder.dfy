/**
 * The adapter state of the x265 encoder plugin (struct x265_encoder_struct,
 * src/heif_encoder_x265.cc 36-44) and the plugin entry points that change
 * it.  The x265 library itself is opaque: the units its encode calls return
 * are inputs of EncodeImage.
 */
module X265Encoder {
  import opened Wrappers
  import opened X265Params
  import opened HevcNal

  /** The fields of x265's parameter record that the adapter writes. */
  class Param {
    var fpsNum: int
    var fpsDenom: int
    var sourceWidth: int32
    var sourceHeight: int32
    var logLevel: int32
    /** Constant rate factor; x265 stores it as a double, the adapter only writes integers. */
    var rfConstant: int

    /**
     * x265_param_alloc with the "slow"/"ssim" preset and the
     * mainstillpicture profile, followed by the adapter's own settings.
     * `presetRfConstant` is the rate factor the preset chose.
     */
    constructor (presetRfConstant: int)
      ensures fpsNum == 1 && fpsDenom == 1
      ensures sourceWidth == 0 && sourceHeight == 0
      ensures logLevel == X265_LOG_NONE
      ensures rfConstant == presetRfConstant
    {
      rfConstant := presetRfConstant;
      fpsNum := 1;
      fpsDenom := 1;
      sourceWidth := 0;
      sourceHeight := 0;
      logLevel := X265_LOG_NONE;
    }
  }

  class Encoder {
    const params: Param
    /** Whether an x265 encoder instance is open (`encoder != nullptr`). */
    var hasEncoder: bool
    /** The current batch (`nals`) and its size (`num_nals`). */
    var nals: Batch
    var numNals: nat
    /** The read cursor into the current batch (`nal_output_counter`). */
    var counter: nat
    /**
     * The batches the open x265 instance still hands out on flush calls,
     * one per call returning a positive result; when none is left, the
     * flush call returns 0 and sets `num_nals` to 0.
     */
    var flushOutput: seq<Batch>

    ghost predicate Valid()
      reads this
    {
      numNals == |nals| &&
      counter <= numNals &&
      WellFormed(nals) &&
      AllWellFormed(flushOutput)
    }

    /** The units still to be read, in order. */
    ghost function PendingUnits(): Batch
      reads this
      requires Valid()
    {
      Pending(nals, counter, flushOutput)
    }

    /** x265_new_encoder: no encoder instance yet, an empty batch, cursor 0. */
    constructor (presetRfConstant: int)
      ensures Valid() && fresh(params)
      ensures !hasEncoder && nals == [] && numNals == 0 && counter == 0 && flushOutput == []
      ensures params.fpsNum == 1 && params.fpsDenom == 1
      ensures params.sourceWidth == 0 && params.sourceHeight == 0
      ensures params.logLevel == X265_LOG_NONE && params.rfConstant == presetRfConstant
    {
      params := new Param(presetRfConstant);
      hasEncoder := false;
      nals := [];
      numNals := 0;
      counter := 0;
      flushOutput := [];
    }

    /** x265_set_param_quality */
    method SetParamQuality(quality: int32)
      requires quality >= 100 - INT32_MAX
      modifies params
      ensures params.rfConstant == QualityToCrf(quality)
      ensures params.fpsNum == old(params.fpsNum) && params.fpsDenom == old(params.fpsDenom)
      ensures params.sourceWidth == old(params.sourceWidth) && params.sourceHeight == old(params.sourceHeight)
      ensures params.logLevel == old(params.logLevel)
    {
      params.rfConstant := QualityToCrf(quality);
    }

    /** x265_set_param_logging_level */
    method SetParamLoggingLevel(logging: int32)
      modifies params
      ensures params.logLevel == ClampLogLevel(logging)
      ensures params.fpsNum == old(params.fpsNum) && params.fpsDenom == old(params.fpsDenom)
      ensures params.sourceWidth == old(params.sourceWidth) && params.sourceHeight == old(params.sourceHeight)
      ensures params.rfConstant == old(params.rfConstant)
    {
      var level := logging;
      if level < 0 { level := 0; }
      if level > 4 { level := 4; }
      params.logLevel := level;
    }

    /**
     * x265_encode_image for a picture whose luma plane is `width` by
     * `height`: the source size is rounded down to even numbers, a new
     * encoder instance is opened, `output` is what encoding the picture
     * returns and `flushes` what the instance returns on later flush calls.
     */
    method EncodeImage(width: int32, height: int32, output: Batch, flushes: seq<Batch>)
      requires Valid() && WellFormed(output) && AllWellFormed(flushes)
      modifies this, params
      ensures Valid()
      ensures params.sourceWidth == ClearLowestBit(width) && params.sourceHeight == ClearLowestBit(height)
      ensures params.fpsNum == old(params.fpsNum) && params.fpsDenom == old(params.fpsDenom)
      ensures params.logLevel == old(params.logLevel) && params.rfConstant == old(params.rfConstant)
      ensures hasEncoder && nals == output && numNals == |output| && counter == 0 && flushOutput == flushes
      ensures PendingUnits() == output + Concat(flushes)
    {
      params.sourceWidth := ClearLowestBit(width);
      params.sourceHeight := ClearLowestBit(height);
      hasEncoder := true;
      nals, numNals := output, |output|;
      flushOutput := flushes;
      counter := 0;
      assert output[0..] == output;
    }

    /** x265_encoder_encode without a picture: the next batch, or a result of 0. */
    method Flush() returns (result: int)
      requires Valid() && counter == 0
      modifies this
      ensures Valid() && hasEncoder == old(hasEncoder) && counter == old(counter)
      ensures result > 0 <==> old(flushOutput) != []
      ensures old(flushOutput) != [] ==> nals == old(flushOutput)[0] && flushOutput == old(flushOutput)[1..]
      ensures old(flushOutput) == [] ==> nals == [] && flushOutput == []
      ensures numNals == |nals|
    {
      if flushOutput == [] {
        nals, numNals := [], 0;
        result := 0;
      } else {
        nals, numNals, flushOutput := flushOutput[0], |flushOutput[0]|, flushOutput[1..];
        result := 1;
      }
    }

    /** The `*data` / `*size` stepping over the start code of one unit. */
    static method SkipStartCode(payload: Unit) returns (offset: nat, size: int)
      requires HasStartCode(payload)
      ensures offset == StartCodeLength(payload)
      ensures size == |payload| - offset
    {
      offset, size := 0, |payload|;
      // skip '0' bytes: the byte is read before the size is tested
      while payload[offset] == 0 && size > 0
        invariant offset <= LeadingZeros(payload)
        invariant size == |payload| - offset
      {
        offset, size := offset + 1, size - 1;
      }
      // skip the '1' byte
      offset, size := offset + 1, size - 1;
    }

    /**
     * x265_get_compressed_data, with the read cursor reset before each
     * flush call.  Returns the next unit without its start code, or None
     * (null data, size 0).
     */
    method GetCompressedData() returns (data: Option<Unit>, size: int)
      requires Valid()
      modifies this
      ensures Valid() && hasEncoder == old(hasEncoder)
      ensures size == if data.Some? then |data.value| else 0
      ensures !old(hasEncoder) ==> data == None && unchanged(this)
      ensures old(hasEncoder) ==>
        var r := Pull(old(nals), old(counter), old(flushOutput));
        data == r.data && nals == r.nals && counter == r.counter && flushOutput == r.flushes
    {
      if !hasEncoder {
        return None, 0;
      }
      ghost var target := Pull(nals, counter, flushOutput);
      while true
        invariant Valid() && hasEncoder
        invariant Pull(nals, counter, flushOutput) == target
        decreases |flushOutput|
      {
        ghost var batches := flushOutput;
        while counter < numNals
          invariant Valid() && hasEncoder
          invariant Pull(nals, counter, flushOutput) == target
          invariant flushOutput == batches
          decreases numNals - counter
        {
          var unit := nals[counter];
          counter := counter + 1;
          var offset, remaining := SkipStartCode(unit);
          var rest := unit[offset..];
          if !(remaining >= 3 && rest[0] == 0x4e && rest[2] == 5) {
            return Some(rest), remaining;
          }
        }
        counter := 0;
        var result := Flush();
        if result <= 0 {
          return None, 0;
        }
      }
    }
  }
}
