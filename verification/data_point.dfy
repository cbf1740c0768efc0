/**
 * DataPoint.py: the record the collection and conversion code passes
 * around, an x value (current or field), a y value (voltage or rotation)
 * and the error of the y value.
 */
module DataPoints {
  datatype DataPoint = DataPoint(xVal: real, yVal: real, yErr: real)
}
