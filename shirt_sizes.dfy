/** The closed list of shirt size codes (src/constants/shirt-designs.ts). */
module ShirtSizes {

  /** `SIZES`: the twelve codes, smallest first. */
  const SIZES: seq<string> := ["4S", "SSS", "SS", "S", "M", "L", "XL", "2XL", "3XL", "4XL", "5XL", "6XL"]

  /** `ALL_SIZES`: the same list, used as the canonical column set. */
  const ALL_SIZES: seq<string> := SIZES

  /** `isValidSize`: membership in `SIZES`. */
  predicate IsValidSize(s: string) {
    s in SIZES
  }

  lemma SizesAreTwelveCodes()
    ensures |SIZES| == 12
    ensures SIZES[0] == "4S" && SIZES[1] == "SSS" && SIZES[2] == "SS" && SIZES[3] == "S"
    ensures SIZES[4] == "M" && SIZES[5] == "L" && SIZES[6] == "XL" && SIZES[7] == "2XL"
    ensures SIZES[8] == "3XL" && SIZES[9] == "4XL" && SIZES[10] == "5XL" && SIZES[11] == "6XL"
    ensures ALL_SIZES == SIZES
  {
  }

  /** No code is listed twice, so a code names exactly one column. */
  lemma SizesDistinct()
    ensures forall i, j :: 0 <= i < j < |SIZES| ==> SIZES[i] != SIZES[j]
  {
  }

  /** `isValidSize(s)` holds exactly for the twelve listed codes. */
  lemma IsValidSizeIff(s: string)
    ensures IsValidSize(s) <==> exists i :: 0 <= i < |SIZES| && SIZES[i] == s
    ensures !IsValidSize("") && IsValidSize("M") && !IsValidSize("m") && !IsValidSize("7XL")
  {
  }
}
