/** Martin Newell's teapot: control points, and the patches that refer to them. */
module TeapotData {

  datatype Point = Point(x: real, y: real, z: real)

  type Surface = s: nat | s < 32

  type Axis = a: nat | a < 3

  /** The sixteen control points of a patch, row by row. */
  function Patch(surf: Surface): (p: seq<nat>)
    ensures |p| == 16 && forall j :: 0 <= j < 16 ==> p[j] < 290
    ensures IsCusp(surf) ==> p[0] == p[1] == p[2] == p[3] == if surf < 28 then 203 else 265
  {
    if surf < 4 then Rim(surf)
    else if surf < 8 then UpperBody(surf - 4)
    else if surf < 12 then LowerBody(surf - 8)
    else if surf < 16 then Handle(surf - 12)
    else if surf < 20 then Spout(surf - 16)
    else if surf < 24 then LidTop(surf - 20)
    else if surf < 28 then LidBrim(surf - 24)
    else Bottom(surf - 28)
  }

  /** The patches that meet in the top of the lid, and those that meet in the middle of the bottom. */
  predicate IsCusp(surf: nat) {
    20 <= surf < 24 || 28 <= surf < 32
  }

  function Rim(k: nat): (p: seq<nat>)
    requires k < 4
    ensures |p| == 16 && forall j :: 0 <= j < 16 ==> p[j] < 290
  {
    if k == 0 then [0, 1, 2, 3, 4, 5, 6, 7, 8, 9, 10, 11, 12, 13, 14, 15]
    else if k == 1 then [3, 16, 17, 18, 7, 19, 20, 21, 11, 22, 23, 24, 15, 25, 26, 27]
    else if k == 2 then [18, 28, 29, 30, 21, 31, 32, 33, 24, 34, 35, 36, 27, 37, 38, 39]
    else [30, 40, 41, 0, 33, 42, 43, 4, 36, 44, 45, 8, 39, 46, 47, 12]
  }

  function UpperBody(k: nat): (p: seq<nat>)
    requires k < 4
    ensures |p| == 16 && forall j :: 0 <= j < 16 ==> p[j] < 290
  {
    if k == 0 then [12, 13, 14, 15, 48, 49, 50, 51, 52, 53, 54, 55, 56, 57, 58, 59]
    else if k == 1 then [15, 25, 26, 27, 51, 60, 61, 62, 55, 63, 64, 65, 59, 66, 67, 68]
    else if k == 2 then [27, 37, 38, 39, 62, 69, 70, 71, 65, 72, 73, 74, 68, 75, 76, 77]
    else [39, 46, 47, 12, 71, 78, 79, 48, 74, 80, 81, 52, 77, 82, 83, 56]
  }

  function LowerBody(k: nat): (p: seq<nat>)
    requires k < 4
    ensures |p| == 16 && forall j :: 0 <= j < 16 ==> p[j] < 290
  {
    if k == 0 then [56, 57, 58, 59, 84, 85, 86, 87, 88, 89, 90, 91, 92, 93, 94, 95]
    else if k == 1 then [59, 66, 67, 68, 87, 96, 97, 98, 91, 99, 100, 101, 95, 102, 103, 104]
    else if k == 2 then [68, 75, 76, 77, 98, 105, 106, 107, 101, 108, 109, 110, 104, 111, 112, 113]
    else [77, 82, 83, 56, 107, 114, 115, 84, 110, 116, 117, 88, 113, 118, 119, 92]
  }

  function Handle(k: nat): (p: seq<nat>)
    requires k < 4
    ensures |p| == 16 && forall j :: 0 <= j < 16 ==> p[j] < 290
  {
    if k == 0 then [120, 121, 122, 123, 124, 125, 126, 127, 128, 129, 130, 131, 132, 133, 134, 135]
    else if k == 1 then [123, 136, 137, 120, 127, 138, 139, 124, 131, 140, 141, 128, 135, 142, 143, 132]
    else if k == 2 then [132, 133, 134, 135, 144, 145, 146, 147, 148, 149, 150, 151, 68, 152, 153, 154]
    else [135, 142, 143, 132, 147, 155, 156, 144, 151, 157, 158, 148, 154, 159, 160, 68]
  }

  function Spout(k: nat): (p: seq<nat>)
    requires k < 4
    ensures |p| == 16 && forall j :: 0 <= j < 16 ==> p[j] < 290
  {
    if k == 0 then [161, 162, 163, 164, 165, 166, 167, 168, 169, 170, 171, 172, 173, 174, 175, 176]
    else if k == 1 then [164, 177, 178, 161, 168, 179, 180, 165, 172, 181, 182, 169, 176, 183, 184, 173]
    else if k == 2 then [173, 174, 175, 176, 185, 186, 187, 188, 189, 190, 191, 192, 193, 194, 195, 196]
    else [176, 183, 184, 173, 188, 197, 198, 185, 192, 199, 200, 189, 196, 201, 202, 193]
  }

  function LidTop(k: nat): (p: seq<nat>)
    requires k < 4
    ensures |p| == 16 && forall j :: 0 <= j < 16 ==> p[j] < 290
    ensures p[0] == p[1] == p[2] == p[3] == 203
  {
    if k == 0 then [203, 203, 203, 203, 204, 205, 206, 207, 208, 208, 208, 208, 209, 210, 211, 212]
    else if k == 1 then [203, 203, 203, 203, 207, 213, 214, 215, 208, 208, 208, 208, 212, 216, 217, 218]
    else if k == 2 then [203, 203, 203, 203, 215, 219, 220, 221, 208, 208, 208, 208, 218, 222, 223, 224]
    else [203, 203, 203, 203, 221, 225, 226, 204, 208, 208, 208, 208, 224, 227, 228, 209]
  }

  function LidBrim(k: nat): (p: seq<nat>)
    requires k < 4
    ensures |p| == 16 && forall j :: 0 <= j < 16 ==> p[j] < 290
  {
    if k == 0 then [209, 210, 211, 212, 229, 230, 231, 232, 233, 234, 235, 236, 237, 238, 239, 240]
    else if k == 1 then [212, 216, 217, 218, 232, 241, 242, 243, 236, 244, 245, 246, 240, 247, 248, 249]
    else if k == 2 then [218, 222, 223, 224, 243, 250, 251, 252, 246, 253, 254, 255, 249, 256, 257, 258]
    else [224, 227, 228, 209, 252, 259, 260, 229, 255, 261, 262, 233, 258, 263, 264, 237]
  }

  function Bottom(k: nat): (p: seq<nat>)
    requires k < 4
    ensures |p| == 16 && forall j :: 0 <= j < 16 ==> p[j] < 290
    ensures p[0] == p[1] == p[2] == p[3] == 265
  {
    if k == 0 then [265, 265, 265, 265, 266, 267, 268, 269, 270, 271, 272, 273, 92, 119, 118, 113]
    else if k == 1 then [265, 265, 265, 265, 269, 274, 275, 276, 273, 277, 278, 279, 113, 112, 111, 104]
    else if k == 2 then [265, 265, 265, 265, 276, 280, 281, 282, 279, 283, 284, 285, 104, 103, 102, 95]
    else [265, 265, 265, 265, 282, 286, 287, 266, 285, 288, 289, 270, 95, 94, 93, 92]
  }

  /** A control point. None is below the table or above the tip of the lid. */
  function Vertex(k: nat): (v: Point)
    requires k < 290
    ensures 0.0 <= v.z <= 3.15
    ensures k == 203 ==> v == Point(0.0, 0.0, 3.15)
    ensures k == 265 ==> v == Point(0.0, 0.0, 0.0)
  {
    if k < 29 then From0(k)
    else if k < 58 then From29(k)
    else if k < 87 then From58(k)
    else if k < 116 then From87(k)
    else if k < 145 then From116(k)
    else if k < 174 then From145(k)
    else if k < 203 then From174(k)
    else if k < 232 then From203(k)
    else if k < 261 then From232(k)
    else From261(k)
  }

  function From0(k: nat): (v: Point)
    requires 0 <= k < 29
    ensures 0.0 <= v.z <= 3.15
  {
    if k == 0 then Point(1.4, 0.0, 2.4)
    else if k == 1 then Point(1.4, -0.784, 2.4)
    else if k == 2 then Point(0.784, -1.4, 2.4)
    else if k == 3 then Point(0.0, -1.4, 2.4)
    else if k == 4 then Point(1.3375, 0.0, 2.53125)
    else if k == 5 then Point(1.3375, -0.749, 2.53125)
    else if k == 6 then Point(0.749, -1.3375, 2.53125)
    else if k == 7 then Point(0.0, -1.3375, 2.53125)
    else if k == 8 then Point(1.4375, 0.0, 2.53125)
    else if k == 9 then Point(1.4375, -0.805, 2.53125)
    else if k == 10 then Point(0.805, -1.4375, 2.53125)
    else if k == 11 then Point(0.0, -1.4375, 2.53125)
    else if k == 12 then Point(1.5, 0.0, 2.4)
    else if k == 13 then Point(1.5, -0.84, 2.4)
    else if k == 14 then Point(0.84, -1.5, 2.4)
    else if k == 15 then Point(0.0, -1.5, 2.4)
    else if k == 16 then Point(-0.784, -1.4, 2.4)
    else if k == 17 then Point(-1.4, -0.784, 2.4)
    else if k == 18 then Point(-1.4, 0.0, 2.4)
    else if k == 19 then Point(-0.749, -1.3375, 2.53125)
    else if k == 20 then Point(-1.3375, -0.749, 2.53125)
    else if k == 21 then Point(-1.3375, 0.0, 2.53125)
    else if k == 22 then Point(-0.805, -1.4375, 2.53125)
    else if k == 23 then Point(-1.4375, -0.805, 2.53125)
    else if k == 24 then Point(-1.4375, 0.0, 2.53125)
    else if k == 25 then Point(-0.84, -1.5, 2.4)
    else if k == 26 then Point(-1.5, -0.84, 2.4)
    else if k == 27 then Point(-1.5, 0.0, 2.4)
    else Point(-1.4, 0.784, 2.4)
  }

  function From29(k: nat): (v: Point)
    requires 29 <= k < 58
    ensures 0.0 <= v.z <= 3.15
  {
    if k == 29 then Point(-0.784, 1.4, 2.4)
    else if k == 30 then Point(0.0, 1.4, 2.4)
    else if k == 31 then Point(-1.3375, 0.749, 2.53125)
    else if k == 32 then Point(-0.749, 1.3375, 2.53125)
    else if k == 33 then Point(0.0, 1.3375, 2.53125)
    else if k == 34 then Point(-1.4375, 0.805, 2.53125)
    else if k == 35 then Point(-0.805, 1.4375, 2.53125)
    else if k == 36 then Point(0.0, 1.4375, 2.53125)
    else if k == 37 then Point(-1.5, 0.84, 2.4)
    else if k == 38 then Point(-0.84, 1.5, 2.4)
    else if k == 39 then Point(0.0, 1.5, 2.4)
    else if k == 40 then Point(0.784, 1.4, 2.4)
    else if k == 41 then Point(1.4, 0.784, 2.4)
    else if k == 42 then Point(0.749, 1.3375, 2.53125)
    else if k == 43 then Point(1.3375, 0.749, 2.53125)
    else if k == 44 then Point(0.805, 1.4375, 2.53125)
    else if k == 45 then Point(1.4375, 0.805, 2.53125)
    else if k == 46 then Point(0.84, 1.5, 2.4)
    else if k == 47 then Point(1.5, 0.84, 2.4)
    else if k == 48 then Point(1.75, 0.0, 1.875)
    else if k == 49 then Point(1.75, -0.98, 1.875)
    else if k == 50 then Point(0.98, -1.75, 1.875)
    else if k == 51 then Point(0.0, -1.75, 1.875)
    else if k == 52 then Point(2.0, 0.0, 1.35)
    else if k == 53 then Point(2.0, -1.12, 1.35)
    else if k == 54 then Point(1.12, -2.0, 1.35)
    else if k == 55 then Point(0.0, -2.0, 1.35)
    else if k == 56 then Point(2.0, 0.0, 0.9)
    else Point(2.0, -1.12, 0.9)
  }

  function From58(k: nat): (v: Point)
    requires 58 <= k < 87
    ensures 0.0 <= v.z <= 3.15
  {
    if k == 58 then Point(1.12, -2.0, 0.9)
    else if k == 59 then Point(0.0, -2.0, 0.9)
    else if k == 60 then Point(-0.98, -1.75, 1.875)
    else if k == 61 then Point(-1.75, -0.98, 1.875)
    else if k == 62 then Point(-1.75, 0.0, 1.875)
    else if k == 63 then Point(-1.12, -2.0, 1.35)
    else if k == 64 then Point(-2.0, -1.12, 1.35)
    else if k == 65 then Point(-2.0, 0.0, 1.35)
    else if k == 66 then Point(-1.12, -2.0, 0.9)
    else if k == 67 then Point(-2.0, -1.12, 0.9)
    else if k == 68 then Point(-2.0, 0.0, 0.9)
    else if k == 69 then Point(-1.75, 0.98, 1.875)
    else if k == 70 then Point(-0.98, 1.75, 1.875)
    else if k == 71 then Point(0.0, 1.75, 1.875)
    else if k == 72 then Point(-2.0, 1.12, 1.35)
    else if k == 73 then Point(-1.12, 2.0, 1.35)
    else if k == 74 then Point(0.0, 2.0, 1.35)
    else if k == 75 then Point(-2.0, 1.12, 0.9)
    else if k == 76 then Point(-1.12, 2.0, 0.9)
    else if k == 77 then Point(0.0, 2.0, 0.9)
    else if k == 78 then Point(0.98, 1.75, 1.875)
    else if k == 79 then Point(1.75, 0.98, 1.875)
    else if k == 80 then Point(1.12, 2.0, 1.35)
    else if k == 81 then Point(2.0, 1.12, 1.35)
    else if k == 82 then Point(1.12, 2.0, 0.9)
    else if k == 83 then Point(2.0, 1.12, 0.9)
    else if k == 84 then Point(2.0, 0.0, 0.45)
    else if k == 85 then Point(2.0, -1.12, 0.45)
    else Point(1.12, -2.0, 0.45)
  }

  function From87(k: nat): (v: Point)
    requires 87 <= k < 116
    ensures 0.0 <= v.z <= 3.15
  {
    if k == 87 then Point(0.0, -2.0, 0.45)
    else if k == 88 then Point(1.5, 0.0, 0.225)
    else if k == 89 then Point(1.5, -0.84, 0.225)
    else if k == 90 then Point(0.84, -1.5, 0.225)
    else if k == 91 then Point(0.0, -1.5, 0.225)
    else if k == 92 then Point(1.5, 0.0, 0.15)
    else if k == 93 then Point(1.5, -0.84, 0.15)
    else if k == 94 then Point(0.84, -1.5, 0.15)
    else if k == 95 then Point(0.0, -1.5, 0.15)
    else if k == 96 then Point(-1.12, -2.0, 0.45)
    else if k == 97 then Point(-2.0, -1.12, 0.45)
    else if k == 98 then Point(-2.0, 0.0, 0.45)
    else if k == 99 then Point(-0.84, -1.5, 0.225)
    else if k == 100 then Point(-1.5, -0.84, 0.225)
    else if k == 101 then Point(-1.5, 0.0, 0.225)
    else if k == 102 then Point(-0.84, -1.5, 0.15)
    else if k == 103 then Point(-1.5, -0.84, 0.15)
    else if k == 104 then Point(-1.5, 0.0, 0.15)
    else if k == 105 then Point(-2.0, 1.12, 0.45)
    else if k == 106 then Point(-1.12, 2.0, 0.45)
    else if k == 107 then Point(0.0, 2.0, 0.45)
    else if k == 108 then Point(-1.5, 0.84, 0.225)
    else if k == 109 then Point(-0.84, 1.5, 0.225)
    else if k == 110 then Point(0.0, 1.5, 0.225)
    else if k == 111 then Point(-1.5, 0.84, 0.15)
    else if k == 112 then Point(-0.84, 1.5, 0.15)
    else if k == 113 then Point(0.0, 1.5, 0.15)
    else if k == 114 then Point(1.12, 2.0, 0.45)
    else Point(2.0, 1.12, 0.45)
  }

  function From116(k: nat): (v: Point)
    requires 116 <= k < 145
    ensures 0.0 <= v.z <= 3.15
  {
    if k == 116 then Point(0.84, 1.5, 0.225)
    else if k == 117 then Point(1.5, 0.84, 0.225)
    else if k == 118 then Point(0.84, 1.5, 0.15)
    else if k == 119 then Point(1.5, 0.84, 0.15)
    else if k == 120 then Point(-1.6, 0.0, 2.025)
    else if k == 121 then Point(-1.6, -0.3, 2.025)
    else if k == 122 then Point(-1.5, -0.3, 2.25)
    else if k == 123 then Point(-1.5, 0.0, 2.25)
    else if k == 124 then Point(-2.3, 0.0, 2.025)
    else if k == 125 then Point(-2.3, -0.3, 2.025)
    else if k == 126 then Point(-2.5, -0.3, 2.25)
    else if k == 127 then Point(-2.5, 0.0, 2.25)
    else if k == 128 then Point(-2.7, 0.0, 2.025)
    else if k == 129 then Point(-2.7, -0.3, 2.025)
    else if k == 130 then Point(-3.0, -0.3, 2.25)
    else if k == 131 then Point(-3.0, 0.0, 2.25)
    else if k == 132 then Point(-2.7, 0.0, 1.8)
    else if k == 133 then Point(-2.7, -0.3, 1.8)
    else if k == 134 then Point(-3.0, -0.3, 1.8)
    else if k == 135 then Point(-3.0, 0.0, 1.8)
    else if k == 136 then Point(-1.5, 0.3, 2.25)
    else if k == 137 then Point(-1.6, 0.3, 2.025)
    else if k == 138 then Point(-2.5, 0.3, 2.25)
    else if k == 139 then Point(-2.3, 0.3, 2.025)
    else if k == 140 then Point(-3.0, 0.3, 2.25)
    else if k == 141 then Point(-2.7, 0.3, 2.025)
    else if k == 142 then Point(-3.0, 0.3, 1.8)
    else if k == 143 then Point(-2.7, 0.3, 1.8)
    else Point(-2.7, 0.0, 1.575)
  }

  function From145(k: nat): (v: Point)
    requires 145 <= k < 174
    ensures 0.0 <= v.z <= 3.15
  {
    if k == 145 then Point(-2.7, -0.3, 1.575)
    else if k == 146 then Point(-3.0, -0.3, 1.35)
    else if k == 147 then Point(-3.0, 0.0, 1.35)
    else if k == 148 then Point(-2.5, 0.0, 1.125)
    else if k == 149 then Point(-2.5, -0.3, 1.125)
    else if k == 150 then Point(-2.65, -0.3, 0.9375)
    else if k == 151 then Point(-2.65, 0.0, 0.9375)
    else if k == 152 then Point(-2.0, -0.3, 0.9)
    else if k == 153 then Point(-1.9, -0.3, 0.6)
    else if k == 154 then Point(-1.9, 0.0, 0.6)
    else if k == 155 then Point(-3.0, 0.3, 1.35)
    else if k == 156 then Point(-2.7, 0.3, 1.575)
    else if k == 157 then Point(-2.65, 0.3, 0.9375)
    else if k == 158 then Point(-2.5, 0.3, 1.125)
    else if k == 159 then Point(-1.9, 0.3, 0.6)
    else if k == 160 then Point(-2.0, 0.3, 0.9)
    else if k == 161 then Point(1.7, 0.0, 1.425)
    else if k == 162 then Point(1.7, -0.66, 1.425)
    else if k == 163 then Point(1.7, -0.66, 0.6)
    else if k == 164 then Point(1.7, 0.0, 0.6)
    else if k == 165 then Point(2.6, 0.0, 1.425)
    else if k == 166 then Point(2.6, -0.66, 1.425)
    else if k == 167 then Point(3.1, -0.66, 0.825)
    else if k == 168 then Point(3.1, 0.0, 0.825)
    else if k == 169 then Point(2.3, 0.0, 2.1)
    else if k == 170 then Point(2.3, -0.25, 2.1)
    else if k == 171 then Point(2.4, -0.25, 2.025)
    else if k == 172 then Point(2.4, 0.0, 2.025)
    else Point(2.7, 0.0, 2.4)
  }

  function From174(k: nat): (v: Point)
    requires 174 <= k < 203
    ensures 0.0 <= v.z <= 3.15
  {
    if k == 174 then Point(2.7, -0.25, 2.4)
    else if k == 175 then Point(3.3, -0.25, 2.4)
    else if k == 176 then Point(3.3, 0.0, 2.4)
    else if k == 177 then Point(1.7, 0.66, 0.6)
    else if k == 178 then Point(1.7, 0.66, 1.425)
    else if k == 179 then Point(3.1, 0.66, 0.825)
    else if k == 180 then Point(2.6, 0.66, 1.425)
    else if k == 181 then Point(2.4, 0.25, 2.025)
    else if k == 182 then Point(2.3, 0.25, 2.1)
    else if k == 183 then Point(3.3, 0.25, 2.4)
    else if k == 184 then Point(2.7, 0.25, 2.4)
    else if k == 185 then Point(2.8, 0.0, 2.475)
    else if k == 186 then Point(2.8, -0.25, 2.475)
    else if k == 187 then Point(3.525, -0.25, 2.49375)
    else if k == 188 then Point(3.525, 0.0, 2.49375)
    else if k == 189 then Point(2.9, 0.0, 2.475)
    else if k == 190 then Point(2.9, -0.15, 2.475)
    else if k == 191 then Point(3.45, -0.15, 2.5125)
    else if k == 192 then Point(3.45, 0.0, 2.5125)
    else if k == 193 then Point(2.8, 0.0, 2.4)
    else if k == 194 then Point(2.8, -0.15, 2.4)
    else if k == 195 then Point(3.2, -0.15, 2.4)
    else if k == 196 then Point(3.2, 0.0, 2.4)
    else if k == 197 then Point(3.525, 0.25, 2.49375)
    else if k == 198 then Point(2.8, 0.25, 2.475)
    else if k == 199 then Point(3.45, 0.15, 2.5125)
    else if k == 200 then Point(2.9, 0.15, 2.475)
    else if k == 201 then Point(3.2, 0.15, 2.4)
    else Point(2.8, 0.15, 2.4)
  }

  function From203(k: nat): (v: Point)
    requires 203 <= k < 232
    ensures 0.0 <= v.z <= 3.15
    ensures k == 203 ==> v == Point(0.0, 0.0, 3.15)
  {
    if k == 203 then Point(0.0, 0.0, 3.15)
    else if k == 204 then Point(0.8, 0.0, 3.15)
    else if k == 205 then Point(0.8, -0.45, 3.15)
    else if k == 206 then Point(0.45, -0.8, 3.15)
    else if k == 207 then Point(0.0, -0.8, 3.15)
    else if k == 208 then Point(0.0, 0.0, 2.85)
    else if k == 209 then Point(0.2, 0.0, 2.7)
    else if k == 210 then Point(0.2, -0.112, 2.7)
    else if k == 211 then Point(0.112, -0.2, 2.7)
    else if k == 212 then Point(0.0, -0.2, 2.7)
    else if k == 213 then Point(-0.45, -0.8, 3.15)
    else if k == 214 then Point(-0.8, -0.45, 3.15)
    else if k == 215 then Point(-0.8, 0.0, 3.15)
    else if k == 216 then Point(-0.112, -0.2, 2.7)
    else if k == 217 then Point(-0.2, -0.112, 2.7)
    else if k == 218 then Point(-0.2, 0.0, 2.7)
    else if k == 219 then Point(-0.8, 0.45, 3.15)
    else if k == 220 then Point(-0.45, 0.8, 3.15)
    else if k == 221 then Point(0.0, 0.8, 3.15)
    else if k == 222 then Point(-0.2, 0.112, 2.7)
    else if k == 223 then Point(-0.112, 0.2, 2.7)
    else if k == 224 then Point(0.0, 0.2, 2.7)
    else if k == 225 then Point(0.45, 0.8, 3.15)
    else if k == 226 then Point(0.8, 0.45, 3.15)
    else if k == 227 then Point(0.112, 0.2, 2.7)
    else if k == 228 then Point(0.2, 0.112, 2.7)
    else if k == 229 then Point(0.4, 0.0, 2.55)
    else if k == 230 then Point(0.4, -0.224, 2.55)
    else Point(0.224, -0.4, 2.55)
  }

  function From232(k: nat): (v: Point)
    requires 232 <= k < 261
    ensures 0.0 <= v.z <= 3.15
  {
    if k == 232 then Point(0.0, -0.4, 2.55)
    else if k == 233 then Point(1.3, 0.0, 2.55)
    else if k == 234 then Point(1.3, -0.728, 2.55)
    else if k == 235 then Point(0.728, -1.3, 2.55)
    else if k == 236 then Point(0.0, -1.3, 2.55)
    else if k == 237 then Point(1.3, 0.0, 2.4)
    else if k == 238 then Point(1.3, -0.728, 2.4)
    else if k == 239 then Point(0.728, -1.3, 2.4)
    else if k == 240 then Point(0.0, -1.3, 2.4)
    else if k == 241 then Point(-0.224, -0.4, 2.55)
    else if k == 242 then Point(-0.4, -0.224, 2.55)
    else if k == 243 then Point(-0.4, 0.0, 2.55)
    else if k == 244 then Point(-0.728, -1.3, 2.55)
    else if k == 245 then Point(-1.3, -0.728, 2.55)
    else if k == 246 then Point(-1.3, 0.0, 2.55)
    else if k == 247 then Point(-0.728, -1.3, 2.4)
    else if k == 248 then Point(-1.3, -0.728, 2.4)
    else if k == 249 then Point(-1.3, 0.0, 2.4)
    else if k == 250 then Point(-0.4, 0.224, 2.55)
    else if k == 251 then Point(-0.224, 0.4, 2.55)
    else if k == 252 then Point(0.0, 0.4, 2.55)
    else if k == 253 then Point(-1.3, 0.728, 2.55)
    else if k == 254 then Point(-0.728, 1.3, 2.55)
    else if k == 255 then Point(0.0, 1.3, 2.55)
    else if k == 256 then Point(-1.3, 0.728, 2.4)
    else if k == 257 then Point(-0.728, 1.3, 2.4)
    else if k == 258 then Point(0.0, 1.3, 2.4)
    else if k == 259 then Point(0.224, 0.4, 2.55)
    else Point(0.4, 0.224, 2.55)
  }

  function From261(k: nat): (v: Point)
    requires 261 <= k < 290
    ensures 0.0 <= v.z <= 3.15
    ensures k == 265 ==> v == Point(0.0, 0.0, 0.0)
  {
    if k == 261 then Point(0.728, 1.3, 2.55)
    else if k == 262 then Point(1.3, 0.728, 2.55)
    else if k == 263 then Point(0.728, 1.3, 2.4)
    else if k == 264 then Point(1.3, 0.728, 2.4)
    else if k == 265 then Point(0.0, 0.0, 0.0)
    else if k == 266 then Point(1.425, 0.0, 0.0)
    else if k == 267 then Point(1.425, 0.798, 0.0)
    else if k == 268 then Point(0.798, 1.425, 0.0)
    else if k == 269 then Point(0.0, 1.425, 0.0)
    else if k == 270 then Point(1.5, 0.0, 0.075)
    else if k == 271 then Point(1.5, 0.84, 0.075)
    else if k == 272 then Point(0.84, 1.5, 0.075)
    else if k == 273 then Point(0.0, 1.5, 0.075)
    else if k == 274 then Point(-0.798, 1.425, 0.0)
    else if k == 275 then Point(-1.425, 0.798, 0.0)
    else if k == 276 then Point(-1.425, 0.0, 0.0)
    else if k == 277 then Point(-0.84, 1.5, 0.075)
    else if k == 278 then Point(-1.5, 0.84, 0.075)
    else if k == 279 then Point(-1.5, 0.0, 0.075)
    else if k == 280 then Point(-1.425, -0.798, 0.0)
    else if k == 281 then Point(-0.798, -1.425, 0.0)
    else if k == 282 then Point(0.0, -1.425, 0.0)
    else if k == 283 then Point(-1.5, -0.84, 0.075)
    else if k == 284 then Point(-0.84, -1.5, 0.075)
    else if k == 285 then Point(0.0, -1.5, 0.075)
    else if k == 286 then Point(0.798, -1.425, 0.0)
    else if k == 287 then Point(1.425, -0.798, 0.0)
    else if k == 288 then Point(0.84, -1.5, 0.075)
    else Point(1.5, -0.84, 0.075)
  }
}
