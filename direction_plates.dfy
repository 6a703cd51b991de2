/** The plate layouts of `LoadDirectionPlates` (ColorCalibration.cpp, lines 275-323):
    for each of the four presentation directions, two literal tables of plate
    numbers, one of which a coin flip (FMath::RandBool()) chooses; and the plate
    index shift AlterPlateColors applies before painting (line 545). */
module DirectionPlates {

  /** A presentation direction: 0 up, 1 left, 2 down, 3 right. */
  predicate IsDirection(d: int)
  {
    0 <= d <= 3
  }

  const Up0: seq<int> := [
      232, 234, 258, 260, 261, 262, 264, 267, 272, 282, 295, 297, 299, 305, 306, 307, 308,
      309, 310, 312, 313, 314, 315, 316, 317, 318, 330, 334, 350, 335, 352, 336, 337, 338,
      339, 340, 341, 342, 343, 344, 345, 346, 347, 348, 349, 350, 351, 353, 354, 355, 356,
      357, 358, 359, 360, 361, 362, 363, 364, 365, 366, 367, 368, 369, 371, 372, 375, 376,
      377, 378, 379, 380, 381, 382, 383, 384, 385, 386, 387, 388, 389, 390, 391, 392, 393,
      394, 395, 396, 397, 398, 399, 400, 401, 402, 403, 404, 405, 406, 411, 412, 431, 432,
      433, 434, 435, 436, 437, 438, 439, 440, 441, 442, 443, 444, 458, 459, 460, 463, 464,
      465, 466, 467, 468, 469, 470, 471, 472, 473, 475, 477, 478, 479, 480, 481, 482, 483,
      486, 488, 516, 519, 520
    ]

  const Up1: seq<int> := [
      135, 136, 164, 177, 178, 179, 180, 182, 183, 184, 185, 186, 187, 188, 189, 190, 191,
      192, 193, 194, 195, 196, 198, 207, 214, 215, 216, 224, 225, 227, 228, 229, 230, 231,
      232, 233, 234, 235, 236, 244, 245, 246, 248, 249, 250, 251, 252, 253, 254, 255, 256,
      257, 258, 259, 260, 261, 262, 263, 264, 265, 266, 267, 268, 269, 271, 272, 273, 274,
      275, 276, 277, 279, 280, 281, 282, 283, 284, 285, 286, 287, 288, 289, 290, 291, 292,
      293, 294, 295, 296, 297, 298, 299, 300, 301, 303, 304, 305, 306, 307, 308, 309, 310,
      311, 312, 313, 314, 315, 316, 317, 318, 319, 329, 330, 331, 332, 333, 348, 334, 350,
      335, 352, 336, 337, 338, 339, 340, 341, 342, 343, 344, 345, 346, 347, 348, 349, 350,
      351, 352, 353, 354, 355, 356, 357, 358, 359, 360, 361, 362, 363, 364, 365, 366, 367,
      368, 369, 370, 371, 372, 373, 374, 375, 376, 377, 378, 379, 380, 381, 382, 383, 384,
      385, 386, 387, 388, 389, 390, 391, 392, 393, 394, 395, 396, 397, 398, 399, 400, 401,
      402, 403, 404, 405, 406, 411, 412, 413, 433, 434, 435, 436, 437, 438, 439, 440, 441,
      442, 443, 444, 458, 459, 460, 463, 465, 468, 469, 470, 472, 479, 480, 481, 482, 483,
      516, 519, 520
    ]

  const Left0: seq<int> := [
      214, 215, 232, 234, 236, 243, 260, 261, 262, 264, 275, 282, 283, 290, 291, 293, 294,
      295, 296, 297, 298, 299, 300, 301, 303, 304, 305, 306, 307, 308, 309, 310, 312, 313,
      314, 315, 316, 317, 318, 319, 320, 321, 324, 325, 327, 328, 329, 330, 346, 347, 348,
      349, 350, 353, 354, 355, 356, 357, 358, 359, 360, 361, 362, 363, 364, 365, 366, 367,
      368, 369, 370, 371, 372, 373, 374, 375, 376, 377, 378, 381, 382, 393, 395, 396, 397,
      398, 399, 400, 404, 405, 406, 411, 412, 413, 414, 415, 416, 417, 418, 419, 420, 421,
      429, 431, 432, 433, 434, 435, 437, 438, 439, 440, 458, 459, 460, 463, 465, 469, 470,
      471, 472, 479, 480, 481, 559, 560, 579, 581, 583
    ]

  const Left1: seq<int> := [
      124, 125, 126, 145, 146, 147, 164, 165, 167, 168, 170, 172, 174, 175, 176, 177, 178,
      179, 180, 181, 182, 183, 194, 195, 198, 202, 203, 204, 205, 206, 207, 208, 209, 210,
      214, 215, 216, 224, 225, 227, 228, 229, 230, 231, 232, 233, 234, 235, 236, 237, 238,
      239, 240, 241, 242, 243, 244, 245, 246, 248, 249, 250, 251, 252, 253, 254, 261, 262,
      263, 264, 265, 266, 267, 268, 269, 271, 272, 273, 274, 275, 276, 277, 278, 279, 280,
      281, 282, 283, 284, 285, 286, 287, 288, 289, 290, 291, 292, 293, 294, 295, 296, 297,
      298, 299, 300, 301, 303, 304, 305, 306, 307, 308, 309, 310, 311, 312, 313, 314, 315,
      316, 317, 318, 319, 320, 321, 322, 323, 324, 325, 326, 327, 328, 329, 330, 331, 332,
      333, 348, 334, 350, 335, 352, 336, 337, 338, 347, 348, 349, 350, 351, 352, 353, 354,
      355, 356, 357, 358, 359, 360, 361, 362, 363, 364, 365, 366, 367, 368, 369, 370, 371,
      372, 373, 374, 375, 376, 377, 378, 379, 380, 381, 382, 383, 384, 385, 386, 387, 388,
      389, 390, 391, 392, 393, 394, 395, 396, 397, 398, 399, 400, 401, 402, 403, 404, 405,
      406, 411, 412, 413, 414, 415, 416, 417, 418, 419, 420, 421, 429, 432, 433, 434, 435,
      436, 437, 438, 439, 440, 441, 458, 459, 460, 463, 465, 469, 470, 472, 479, 480, 481,
      483, 516, 519, 520, 552, 590, 559, 560
    ]

  const Down0: seq<int> := [
      125, 135, 136, 164, 165, 167, 168, 170, 172, 174, 175, 176, 177, 178, 179, 180, 182,
      183, 184, 185, 186, 187, 188, 189, 190, 191, 192, 193, 194, 195, 196, 198, 214, 215,
      216, 224, 225, 227, 228, 229, 230, 231, 232, 233, 234, 235, 236, 237, 238, 239, 240,
      241, 242, 243, 244, 245, 246, 248, 249, 250, 251, 252, 253, 254, 255, 256, 257, 258,
      259, 260, 261, 262, 263, 264, 265, 266, 267, 268, 269, 271, 272, 273, 274, 275, 285,
      286, 287, 288, 289, 290, 291, 292, 293, 294, 295, 296, 297, 298, 299, 300, 301, 303,
      304, 305, 306, 307, 308, 309, 310, 311, 312, 313, 314, 315, 316, 317, 318, 319, 320,
      321, 322, 323, 324, 325, 326, 327, 328, 329, 330, 331, 332, 333, 348, 334, 350, 335,
      352, 336, 337, 338, 339, 340, 341, 342, 343, 344, 345, 346, 347, 348, 349, 350, 351,
      352, 353, 354, 355, 356, 357, 358, 359, 360, 369, 370, 371, 372, 373, 374, 375, 376,
      377, 378, 379, 380, 381, 382, 383, 384, 385, 386, 387, 388, 389, 390, 391, 392, 393,
      394, 395, 396, 397, 398, 399, 400, 401, 402, 403, 404, 405, 406, 411, 412, 413, 414,
      415, 416, 417, 418, 419, 420, 421, 429, 433, 434, 435, 436, 437, 438, 439, 440, 441,
      442, 443, 444, 458, 459, 460, 463, 465, 479, 480, 481, 482, 483, 516, 519, 520, 559,
      560
    ]

  const Down1: seq<int> := [
      135, 136, 164, 176, 177, 178, 179, 180, 182, 183, 184, 185, 186, 187, 188, 189, 190,
      191, 192, 193, 194, 195, 196, 198, 207, 214, 215, 216, 224, 225, 227, 228, 229, 230,
      231, 232, 233, 234, 235, 236, 237, 241, 242, 243, 244, 245, 246, 248, 249, 250, 251,
      252, 253, 254, 255, 256, 257, 258, 259, 260, 261, 262, 263, 264, 265, 266, 267, 268,
      269, 271, 272, 273, 282, 283, 284, 285, 286, 287, 288, 289, 290, 291, 292, 293, 294,
      295, 296, 297, 298, 299, 300, 301, 303, 304, 305, 306, 307, 308, 309, 310, 311, 312,
      313, 314, 315, 316, 317, 318, 319, 320, 321, 322, 323, 324, 325, 326, 327, 328, 329,
      330, 331, 332, 333, 348, 334, 350, 335, 352, 336, 337, 338, 339, 340, 341, 342, 343,
      344, 345, 346, 347, 348, 349, 350, 351, 352, 353, 354, 355, 356, 357, 358, 359, 364,
      365, 366, 367, 368, 369, 370, 371, 372, 373, 374, 375, 376, 377, 378, 379, 380, 381,
      382, 383, 384, 385, 386, 387, 388, 389, 390, 391, 392, 393, 394, 395, 396, 397, 398,
      399, 400, 401, 402, 403, 404, 405, 406, 411, 412, 413, 414, 415, 416, 417, 418, 419,
      420, 421, 429, 433, 434, 435, 436, 437, 438, 439, 440, 441, 442, 443, 444, 458, 459,
      460, 463, 479, 480, 481, 482, 483, 516, 519, 520, 559, 560
    ]

  const Right0: seq<int> := [
      135, 136, 164, 177, 178, 179, 180, 182, 183, 184, 185, 186, 187, 188, 189, 190, 191,
      192, 193, 194, 195, 196, 198, 207, 214, 225, 227, 228, 229, 230, 231, 232, 233, 234,
      235, 236, 237, 239, 241, 242, 243, 244, 245, 246, 248, 249, 250, 251, 252, 253, 254,
      255, 256, 257, 258, 259, 260, 261, 262, 263, 264, 265, 266, 267, 268, 269, 271, 272,
      273, 274, 275, 276, 277, 279, 280, 281, 282, 283, 284, 285, 286, 287, 288, 289, 290,
      291, 292, 293, 294, 295, 296, 297, 298, 305, 306, 307, 308, 309, 310, 311, 312, 313,
      314, 315, 316, 317, 318, 319, 320, 321, 322, 323, 324, 325, 326, 327, 328, 329, 330,
      331, 332, 333, 348, 334, 350, 335, 352, 336, 337, 338, 339, 340, 341, 342, 343, 344,
      345, 346, 347, 348, 349, 350, 351, 352, 353, 354, 355, 356, 357, 358, 359, 360, 361,
      362, 363, 364, 365, 366, 367, 368, 369, 370, 371, 372, 373, 374, 375, 376, 377, 378,
      379, 380, 381, 382, 383, 384, 385, 386, 387, 388, 389, 400, 401, 402, 403, 404, 405,
      406, 411, 412, 413, 414, 415, 416, 417, 418, 419, 420, 421, 422, 423, 424, 433, 434,
      435, 436, 437, 438, 439, 440, 441, 442, 443, 444, 458, 459, 460, 463, 465, 468, 469,
      470, 472, 479, 480, 481, 482, 483, 559, 560
    ]

  const Right1: seq<int> := [
      135, 136, 164, 177, 178, 179, 180, 182, 183, 184, 185, 186, 187, 188, 189, 190, 191,
      192, 193, 194, 195, 196, 198, 199, 200, 202, 203, 204, 206, 207, 222, 223, 224, 225,
      226, 227, 228, 229, 230, 231, 232, 233, 234, 235, 236, 237, 239, 241, 242, 243, 244,
      245, 246, 248, 249, 250, 251, 252, 253, 254, 255, 256, 257, 258, 259, 260, 261, 262,
      263, 264, 265, 266, 267, 268, 269, 270, 271, 272, 273, 274, 275, 276, 277, 278, 279,
      280, 281, 282, 283, 284, 285, 286, 287, 288, 289, 290, 291, 292, 293, 294, 304, 305,
      306, 307, 308, 309, 310, 311, 312, 313, 314, 315, 316, 317, 318, 319, 320, 321, 322,
      323, 324, 325, 326, 327, 328, 329, 330, 331, 332, 333, 348, 334, 350, 335, 352, 336,
      337, 338, 339, 340, 341, 342, 343, 344, 345, 346, 347, 348, 349, 350, 351, 352, 353,
      354, 355, 356, 357, 358, 359, 360, 361, 362, 363, 364, 365, 366, 367, 368, 369, 370,
      371, 372, 373, 374, 375, 376, 377, 378, 379, 380, 381, 382, 383, 384, 385, 399, 400,
      401, 402, 403, 404, 405, 406, 411, 412, 413, 414, 415, 416, 417, 418, 419, 420, 421,
      422, 423, 424, 429, 433, 434, 435, 436, 437, 438, 439, 440, 441, 442, 443, 444, 458,
      459, 460, 463, 465, 468, 469, 470, 472, 479, 480, 481, 482, 483, 518, 519, 520, 521,
      559, 560
    ]

  /** LoadDirectionPlates: the layout for `direction`, table 0 when `coin` is true and
      table 1 otherwise; a direction outside 0..3 leaves the list empty. */
  function Layout(direction: int, coin: bool): (plates: seq<int>)
    ensures plates == [] <==> !IsDirection(direction)
  {
    match direction
    case 0 => if coin then Up0 else Up1
    case 1 => if coin then Left0 else Left1
    case 2 => if coin then Down0 else Down1
    case 3 => if coin then Right0 else Right1
    case _ => []
  }

  /** The actor index painted for plate number `j`: numbers up to 211 are shifted by one. */
  function PlateSlot(j: int): int
  {
    if j <= 211 then j + 1 else j
  }

  /** The shift keeps plate order, never targets actor 0 from a plate number >= 0,
      and merges exactly one pair of plate numbers: 211 and 212. */
  lemma PlateSlotOrder(a: int, b: int)
    ensures a <= b ==> PlateSlot(a) <= PlateSlot(b)
    ensures a >= 0 ==> PlateSlot(a) >= 1
    ensures a < b && PlateSlot(a) == PlateSlot(b) <==> a == 211 && b == 212
  {
  }
}
