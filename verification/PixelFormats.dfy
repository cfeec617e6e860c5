/** The frame formats the application moves end to end, and the facts about them
    that the frame tap, the recorder and the configuration files rely on. */
module PixelFormats {

  datatype PixelFormat =
    | Unknown
    | Gray8
    | Rgb8
    | Rgba8
    | Bgr8
    | Bgra8
    | Yuyv
    | Nv12
    | I420
    | Mjpeg
    | H264

  predicate IsCompressed(f: PixelFormat) {
    f.Mjpeg? || f.H264?
  }

  predicate IsPlanar(f: PixelFormat) {
    f.Nv12? || f.I420?
  }

  /** Average bits per pixel over the whole frame; 0 for compressed or unknown. */
  function BitsPerPixel(f: PixelFormat): nat {
    match f
    case Gray8 => 8
    case Rgb8 | Bgr8 => 24
    case Rgba8 | Bgra8 => 32
    case Yuyv => 16
    case Nv12 | I420 => 12
    case _ => 0
  }

  function ToString(f: PixelFormat): string {
    match f
    case Gray8 => "GRAY8"
    case Rgb8 => "RGB8"
    case Rgba8 => "RGBA8"
    case Bgr8 => "BGR8"
    case Bgra8 => "BGRA8"
    case Yuyv => "YUYV"
    case Nv12 => "NV12"
    case I420 => "I420"
    case Mjpeg => "MJPEG"
    case H264 => "H264"
    case Unknown => "UNKNOWN"
  }
}
