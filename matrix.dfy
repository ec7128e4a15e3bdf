/** 4x4 matrices as symbolic terms. The numeric work is done by a linear-algebra
    library outside the core; the model keeps only which operations are applied
    to which operands, in which order. */
module Matrix {

  datatype Vec3 = Vec3(x: real, y: real, z: real)

  datatype Mat =
    | Identity
    | Rotate(m: Mat, angle: real, axis: Vec3)
    | Translate(m: Mat, v: Vec3)
    | Scale(m: Mat, v: Vec3)
    | RotateX(m: Mat, angle: real)
    | RotateY(m: Mat, angle: real)
    | RotateZ(m: Mat, angle: real)
    | Multiply(a: Mat, b: Mat)
}
