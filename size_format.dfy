/**
  The `formatFileSize` helper, written identically in the upload widget and
  the file manager page: bytes below 1 KiB as a whole number with " B",
  below 1 MiB as kibibytes with one decimal and " KB", otherwise as
  mebibytes with one decimal and " MB".
 */
module SizeFormat {
  import opened Text
  import opened Numbers

  const KiB: int := 1024
  const MiB: int := 1024 * 1024

  /**
    `(tenths / 10).toFixed(1)` for a non-negative number of tenths. The
    divisions by 1024 and by 1024 * 1024 are exact in binary floating point,
    so `toFixed(1)` rounds an exact quotient: a half goes up.
   */
  function OneDecimal(tenths: nat): (s: string)
    ensures |s| >= 3 && s[|s| - 2] == '.' && IsDigit(s[|s| - 1])
    ensures forall i :: 0 <= i < |s| - 2 ==> IsDigit(s[i])
    ensures 10 * DigitsValue(s[..|s| - 2]) + (s[|s| - 1] as int - '0' as int) == tenths
  {
    var whole := NatToString(tenths / 10);
    var s := whole + "." + [DigitChar(tenths % 10)];
    assert s[..|s| - 2] == whole;
    s
  }

  /** Tenths of a kibibyte or mebibyte, as `toFixed(1)` rounds them. */
  function ScaledTenths(bytes: int, unit: int): (t: nat)
    requires unit > 0 && bytes >= 0
    ensures unit * (2 * t - 1) <= 20 * bytes < unit * (2 * t + 1)
  {
    RoundHalfUp(10 * bytes, unit)
  }

  /** `formatFileSize(bytes)`. */
  function FormatFileSize(bytes: int): (s: string)
    ensures bytes < KiB ==> s == IntToString(bytes) + " B"
    ensures EndsWith(s, " B") <==> bytes < KiB
    ensures EndsWith(s, " KB") <==> KiB <= bytes < MiB
    ensures EndsWith(s, " MB") <==> MiB <= bytes
  {
    if bytes < KiB then
      var s := IntToString(bytes) + " B";
      assert s[|s| - 2..] == " B";
      s
    else if bytes < MiB then
      var s := OneDecimal(ScaledTenths(bytes, KiB)) + " KB";
      assert s[|s| - 3..] == " KB" && s[|s| - 2..] == "KB";
      s
    else
      var s := OneDecimal(ScaledTenths(bytes, MiB)) + " MB";
      assert s[|s| - 3..] == " MB" && s[|s| - 2..] == "MB";
      s
  }

  /**
    The figure printed for a size from 1 KiB up is within a twentieth of
    the exact quotient: |tenths / 10 - bytes / unit| <= 1 / 20.
   */
  lemma ScaledFigureIsNearest(bytes: int)
    requires bytes >= KiB
    ensures var unit := if bytes < MiB then KiB else MiB;
            var t := ScaledTenths(bytes, unit);
            -unit <= 2 * unit * t - 20 * bytes <= unit
  {
  }
}
